/**
 Where a configuration lives on disk: `<root>configs/<mod>.cfg` for the
 category-less configuration of a mod, `<root>configs/<mod>/<category>.cfg`
 otherwise.
 */
module ConfigPaths {
  import opened ConfigTypes

  function ConfigurationFolderPath(rootDir: string): string
  {
    rootDir + "configs/"
  }

  /** The part of the path between the folder and the extension. */
  function FileStem(id: ConfigId): string
  {
    if id.category == "" then id.modReference else id.modReference + "/" + id.category
  }

  function ConfigurationFilePath(rootDir: string, id: ConfigId): (p: string)
    ensures p == ConfigurationFolderPath(rootDir) + FileStem(id) + ".cfg"
  {
    var folder := ConfigurationFolderPath(rootDir);
    if id.category == "" then folder + id.modReference + ".cfg"
    else folder + id.modReference + "/" + id.category + ".cfg"
  }

  /** A configuration without a category sits directly in the folder (no further
      directory separator); one with a category sits in the mod's own directory. */
  lemma {:induction false} CategoryDecidesDirectory(rootDir: string, id: ConfigId)
    requires '/' !in id.modReference && '/' !in id.category
    ensures var stem := FileStem(id);
      ('/' in stem <==> id.category != "") &&
      (id.category != "" ==> stem[..|id.modReference|] == id.modReference && stem[|id.modReference|] == '/')
  {
    var stem := FileStem(id);
    if id.category != "" {
      assert stem[|id.modReference|] == '/';
    } else {
      assert stem == id.modReference;
    }
  }

  lemma SeparatorAfterMod(m: string, category: string)
    ensures (m + "/" + category)[|m|] == '/'
  {
  }

  lemma {:induction false} StemInjective(a: ConfigId, b: ConfigId)
    requires '/' !in a.modReference && '/' !in b.modReference
    requires FileStem(a) == FileStem(b)
    ensures a == b
  {
    var ma, mb := a.modReference, b.modReference;
    if a.category != "" && b.category != "" {
      var s := FileStem(a);
      if |ma| < |mb| {
        SeparatorAfterMod(ma, a.category);
        assert false;
      } else if |mb| < |ma| {
        SeparatorAfterMod(mb, b.category);
        assert false;
      }
      assert ma == s[..|ma|] == mb;
      assert a.category == s[|ma| + 1..] == b.category;
    }
  }

  /** Two configurations share a file only when they are the same configuration,
      as long as mod references hold no directory separator. */
  lemma {:induction false} FilePathInjective(rootDir: string, a: ConfigId, b: ConfigId)
    requires '/' !in a.modReference && '/' !in b.modReference
    requires ConfigurationFilePath(rootDir, a) == ConfigurationFilePath(rootDir, b)
    ensures a == b
  {
    var folder := ConfigurationFolderPath(rootDir);
    var pa := ConfigurationFilePath(rootDir, a);
    var sa, sb := FileStem(a), FileStem(b);
    assert |sa| == |sb|;
    assert pa[|folder|..|folder| + |sa|] == sa;
    assert ConfigurationFilePath(rootDir, b)[|folder|..|folder| + |sb|] == sb;
    StemInjective(a, b);
  }

  /** Without that restriction two configurations can collide. */
  lemma SlashedModReferenceCollides(rootDir: string)
    ensures ConfigId("A/B", "") != ConfigId("A", "B")
    ensures ConfigurationFilePath(rootDir, ConfigId("A/B", "")) == ConfigurationFilePath(rootDir, ConfigId("A", "B"))
    ensures ConfigId("A/B", "C") != ConfigId("A", "B/C")
    ensures ConfigurationFilePath(rootDir, ConfigId("A/B", "C")) == ConfigurationFilePath(rootDir, ConfigId("A", "B/C"))
  {
    assert FileStem(ConfigId("A/B", "")) == "A/B" == FileStem(ConfigId("A", "B"));
    assert FileStem(ConfigId("A/B", "C")) == "A/B/C" == FileStem(ConfigId("A", "B/C"));
  }
}
