/**
 Stand-in for the value tree operations whose code lives outside the manager
 (`CreateNewValue`, `Serialize`, `Deserialize`, `FillConfigStructSelf`).
 `CreateNewValue` gives the schema's defaults and `Serialize` the tree itself;
 `Deserialize` and `FillConfigStructSelf` are one default-preserving merge: a
 field of the target takes the source's value when the source has a field of
 that name and kind; unknown source fields are ignored and missing ones leave
 the target's value.
 */
module ValueTree {
  import opened ConfigTypes

  /** The value has exactly the schema's properties, each of the declared kind. */
  predicate Conforms(tree: Section, schema: Section)
  {
    tree.Keys == schema.Keys && forall k :: k in tree ==> SameKind(tree[k], schema[k])
  }

  /** Every field of `snapshot` that the tree has with the same kind holds the tree's value. */
  predicate Reflects(tree: Section, snapshot: Section)
  {
    forall k :: k in snapshot && k in tree && SameKind(tree[k], snapshot[k]) ==> snapshot[k] == tree[k]
  }

  function Overlay(target: Section, source: Section): (r: Section)
    ensures r.Keys == target.Keys
    ensures forall k :: k in r ==> SameKind(r[k], target[k])
    ensures forall k :: k in target && k !in source ==> r[k] == target[k]
    ensures forall k :: k in target && k in source && SameKind(source[k], target[k]) ==> r[k] == source[k]
    ensures forall k :: k in target && k in source && !SameKind(source[k], target[k]) ==> r[k] == target[k]
  {
    map k | k in target :: if k in source && SameKind(source[k], target[k]) then source[k] else target[k]
  }

  /** A fresh root value built from a schema: every property at its default. */
  function CreateNewValue(schema: Section): (r: Section)
    ensures Conforms(r, schema)
  {
    schema
  }

  /** The raw-format snapshot of a tree. */
  function Serialize(tree: Section): JsonObject
  {
    tree
  }

  /** Best-effort, in-place update of `tree` from a raw value. */
  function Deserialize(tree: Section, raw: JsonObject): (r: Section)
    ensures r.Keys == tree.Keys
    ensures forall k :: k in tree && k in raw && SameKind(raw[k], tree[k]) ==> r[k] == raw[k]
    ensures forall k :: k in tree && (k !in raw || !SameKind(raw[k], tree[k])) ==> r[k] == tree[k]
    ensures forall schema :: Conforms(tree, schema) ==> Conforms(r, schema)
  {
    Overlay(tree, raw)
  }

  /** Copies the tree's values into the struct's fields of the same name and kind. */
  function FillStructSelf(tree: Section, snapshot: Section): (r: Section)
    ensures r.Keys == snapshot.Keys
    ensures forall k :: k in r ==> SameKind(r[k], snapshot[k])
    ensures forall k :: k in snapshot && k in tree && SameKind(tree[k], snapshot[k]) ==> r[k] == tree[k]
    ensures forall k :: k in snapshot && !(k in tree && SameKind(tree[k], snapshot[k])) ==> r[k] == snapshot[k]
    ensures Reflects(tree, r)
  {
    Overlay(snapshot, tree)
  }

  lemma ReflectsIffFillIsNoOp(tree: Section, snapshot: Section)
    ensures Reflects(tree, snapshot) <==> FillStructSelf(tree, snapshot) == snapshot
  {
    if Reflects(tree, snapshot) {
      var r := FillStructSelf(tree, snapshot);
      forall k | k in snapshot ensures r[k] == snapshot[k] {
      }
      assert r == snapshot;
    }
  }

  /** Filling twice from the same tree gives what filling once gives. */
  lemma FillIdempotent(tree: Section, snapshot: Section)
    ensures FillStructSelf(tree, FillStructSelf(tree, snapshot)) == FillStructSelf(tree, snapshot)
  {
    ReflectsIffFillIsNoOp(tree, FillStructSelf(tree, snapshot));
  }

  /** Deserializing a snapshot into a fresh tree of the same schema restores the snapshot. */
  lemma SerializeRoundTrip(tree: Section, schema: Section)
    requires Conforms(tree, schema)
    ensures Deserialize(CreateNewValue(schema), Serialize(tree)) == tree
  {
    var r := Deserialize(CreateNewValue(schema), Serialize(tree));
    forall k | k in tree ensures r[k] == tree[k] {
    }
    assert r == tree;
  }

  /** Migration into another schema: a property keeps the old value when the old tree
      has it with the declared kind, and otherwise takes the new schema's default. */
  lemma MigrationKeepsMatchingFields(tree: Section, schema: Section, k: string)
    requires k in schema
    ensures var r := Deserialize(CreateNewValue(schema), Serialize(tree));
      k in r &&
      (k in tree && SameKind(tree[k], schema[k]) ==> r[k] == tree[k]) &&
      (k !in tree || !SameKind(tree[k], schema[k]) ==> r[k] == schema[k])
  {
  }
}
