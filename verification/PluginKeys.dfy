/** Plugin keys of the form `repo/name[@version]`. */
module PluginKeys {
  import opened Text

  datatype Decomposed = Malformed | Parts(repo: string, name: string, version: string)

  function DecomposePluginKey(key: string): Decomposed {
    var (repo, rest, found) := Cut(key, '/');
    if !found then Malformed
    else
      var (name, version, _) := Cut(rest, '@');
      if repo == "" || name == "" then Malformed else Parts(repo, name, version)
  }

  /** A key without a repository names a built-in executor. */
  function ExecutorNameForKey(key: string): string {
    var (prefix, rest, found) := Cut(key, '/');
    if !found then prefix else Cut(rest, '@').0
  }

  function Printed(repo: string, name: string, version: string): string {
    repo + "/" + name + if version == "" then "" else "@" + version
  }

  /** Decomposition recovers what was printed. */
  lemma DecomposePrinted(repo: string, name: string, version: string)
    requires repo != "" && '/' !in repo && name != "" && '@' !in name
    ensures DecomposePluginKey(Printed(repo, name, version)) == Parts(repo, name, version)
  {
    var rest := name + if version == "" then "" else "@" + version;
    assert Printed(repo, name, version) == repo + ['/'] + rest;
    CutAt(repo, rest, '/');
    if version == "" {
      assert rest == name;
      CutAbsent(name, '@');
    } else {
      assert rest == name + ['@'] + version;
      CutAt(name, version, '@');
    }
  }

  /** A bare trailing `@` makes another key but does not change what it decomposes into. */
  lemma DecomposeBare(repo: string, name: string)
    requires repo != "" && '/' !in repo && name != "" && '@' !in name
    ensures DecomposePluginKey(Printed(repo, name, "") + "@") == Parts(repo, name, "")
    ensures Printed(repo, name, "") + "@" != Printed(repo, name, "")
  {
    assert |Printed(repo, name, "") + "@"| == |Printed(repo, name, "")| + 1;
    assert Printed(repo, name, "") + "@" == repo + ['/'] + (name + ['@'] + "");
    CutAt(repo, name + ['@'] + "", '/');
    CutAt(name, "", '@');
  }

  predicate SpelledAs(key: string, repo: string, name: string, version: string) {
    key == Printed(repo, name, version) || (version == "" && key == Printed(repo, name, "") + "@")
  }

  lemma Spelling(repo: string, name: string, suffix: string)
    ensures repo + ['/'] + (name + suffix) == repo + "/" + name + suffix
  {
  }

  /** A key is the printed form of its parts, except that an empty version may also be spelled with a bare `@`. */
  lemma PrintDecomposed(key: string)
    requires DecomposePluginKey(key).Parts?
    ensures var p := DecomposePluginKey(key);
      p.repo != "" && '/' !in p.repo && p.name != "" && '@' !in p.name && SpelledAs(key, p.repo, p.name, p.version)
  {
    var (repo, rest, found) := Cut(key, '/');
    var (name, version, versioned) := Cut(rest, '@');
    CutMeaning(key, '/');
    CutMeaning(rest, '@');
    var suffix := if versioned then "@" + version else "";
    assert rest == name + suffix;
    Spelling(repo, name, suffix);
    assert key == repo + "/" + name + suffix;
    if version == "" {
      assert suffix == "" || suffix == "@";
      assert repo + "/" + name + "" == repo + "/" + name;
    }
  }

  /** A key without a slash is the name of a built-in executor. */
  lemma NamesAgree(key: string)
    ensures DecomposePluginKey(key).Parts? ==> ExecutorNameForKey(key) == DecomposePluginKey(key).name
    ensures '/' !in key ==> ExecutorNameForKey(key) == key
  {
    if '/' !in key {
      CutAbsent(key, '/');
    }
  }
}
