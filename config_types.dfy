/**
 The entities of the mod configuration manager: configuration identities,
 schema classes, the (flattened) value tree, the JSON objects written to disk
 and the abstract file system those objects live in.
 */
module ConfigTypes {

  datatype Option<T> = None | Some(value: T)

  /** Identity of an engine class object (classes are compared by pointer). */
  type ClassId = nat

  /** Identity of a script struct type, the key of the struct cache. */
  type StructType = nat

  datatype ScalarKind = BoolKind | IntKind | FloatKind | StringKind

  /** A leaf value of the configuration tree, and of its raw / JSON form. */
  datatype Scalar =
    | BoolValue(b: bool)
    | IntValue(i: int)
    | FloatValue(f: real)
    | StringValue(s: string)

  function Kind(v: Scalar): ScalarKind
  {
    match v
    case BoolValue(_) => BoolKind
    case IntValue(_) => IntKind
    case FloatValue(_) => FloatKind
    case StringValue(_) => StringKind
  }

  predicate SameKind(a: Scalar, b: Scalar)
  {
    Kind(a) == Kind(b)
  }

  /** A section: property name to value. A schema's root section is the same
      shape, holding each property's default. */
  type Section = map<string, Scalar>

  /** The JSON object that a configuration file holds. */
  type JsonObject = map<string, Scalar>

  /** The blueprint that generated a class; `generatedClass` is its current class. */
  datatype Blueprint = Blueprint(generatedClass: ClassId)

  /** A mod configuration class (a `UModConfiguration` subclass). */
  datatype ConfigClass = ConfigClass(
    id: ClassId,
    rootSection: Section,
    newerVersionExists: bool,         // CLASS_NewerVersionExists
    generatedBy: Option<Blueprint>)   // ClassGeneratedBy, when it is a blueprint

  /** `FConfigId`: a mod reference and an optional (possibly empty) category. */
  datatype ConfigId = ConfigId(modReference: string, category: string)

  /** The caller's struct in `FillConfigurationStruct`: its type and current contents. */
  datatype StructInfo = StructInfo(structType: StructType, value: Section)

  /** What reading a path gives: a parsed JSON object, text that does not parse,
      or a file that exists but cannot be read. */
  datatype FileContent = Text(json: JsonObject) | Malformed | Unreadable

  /** What the manager consults but never changes: the engine root directory,
      the loaded mods (reference to version string) and the paths whose writes fail. */
  datatype Env = Env(rootDir: string, loadedMods: map<string, string>, unwritable: set<string>)

  /** `FRegisteredConfigurationData`. */
  datatype Entry = Entry(
    configId: ConfigId,
    configClass: ConfigClass,
    root: Section,
    cache: map<StructType, Section>)

  predicate NoDuplicates<T(==)>(xs: seq<T>)
  {
    forall i, j :: 0 <= i < j < |xs| ==> xs[i] != xs[j]
  }
}
