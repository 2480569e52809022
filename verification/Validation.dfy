/**
 Validation of the plugins bound to a channel. A configuration group holds plugins by key; a channel binds groups
 by name.
 */
module Validation {
  import opened Options
  import opened PluginKeys
  import opened Text

  datatype Policy = Policy(userType: string, userValue: string, userPrefix: string,
                           groupType: string, groupValues: Option<seq<string>>, groupPrefix: string)

  datatype Plugin = Plugin(enabled: bool, config: Option<string>, rbac: Option<Policy>)

  type Plugins = map<string, Plugin>
  type Groups = map<string, Plugins>

  datatype Issue =
    | UnknownBinding(name: string)
    | MalformedKey(key: string)
    | ConflictingRepo(key: string)
    | ConflictingVersion(key: string)
    | ConflictingRBAC(key: string, head: string, next: string)

  datatype Origin = Origin(repo: string, version: string)

  function PluginsOf(groups: Groups, name: string): Plugins {
    if name in groups then groups[name] else map[]
  }

  function RulesOf(groups: Groups, name: string, key: string): Option<Policy> {
    if key in PluginsOf(groups, name) then PluginsOf(groups, name)[key].rbac else None
  }

  predicate EnabledIn(groups: Groups, name: string, key: string) {
    key in PluginsOf(groups, name) && PluginsOf(groups, name)[key].enabled
  }

  // ---- one origin per plugin name --------------------------------------------

  /** Where the first well-formed key for a plugin name comes from. */
  function FirstOrigin(keys: seq<string>, name: string): Option<Origin> {
    if keys == [] then None
    else
      var earlier := FirstOrigin(keys[..|keys| - 1], name);
      match DecomposePluginKey(keys[|keys| - 1])
      case Parts(repo, n, version) => if earlier.None? && n == name then Some(Origin(repo, version)) else earlier
      case Malformed => earlier
  }

  function IssueOf(keys: seq<string>, key: string): seq<Issue> {
    match DecomposePluginKey(key)
    case Malformed => []
    case Parts(repo, name, version) =>
      var first := FirstOrigin(keys, name);
      if first.None? then []
      else if first.value.repo != repo then [ConflictingRepo(key)]
      else if first.value.version != version then [ConflictingVersion(key)]
      else []
  }

  function BoundIssues(keys: seq<string>): seq<Issue> {
    if keys == [] then [] else BoundIssues(keys[..|keys| - 1]) + IssueOf(keys[..|keys| - 1], keys[|keys| - 1])
  }

  /** The index holds the first origin of every plugin name. */
  ghost predicate Indexes(index: map<string, Origin>, keys: seq<string>) {
    forall name :: FirstOrigin(keys, name) == if name in index then Some(index[name]) else None
  }

  lemma FirstOriginLast(keys: seq<string>, name: string)
    requires keys != []
    ensures FirstOrigin(keys, name) ==
            var earlier := FirstOrigin(keys[..|keys| - 1], name);
            match DecomposePluginKey(keys[|keys| - 1])
            case Parts(repo, n, version) => if earlier.None? && n == name then Some(Origin(repo, version)) else earlier
            case Malformed => earlier
  {
  }

  lemma IndexesMore(index: map<string, Origin>, keys: seq<string>, next: map<string, Origin>, all: seq<string>)
    requires Indexes(index, keys) && all != [] && all[..|all| - 1] == keys
    requires match DecomposePluginKey(all[|all| - 1])
             case Malformed => next == index
             case Parts(repo, name, version) => next == if name in index then index
               else index[name := Origin(repo, version)]
    ensures Indexes(next, all)
  {
    forall name ensures FirstOrigin(all, name) == if name in next then Some(next[name]) else None {
      FirstOriginLast(all, name);
      assert FirstOrigin(keys, name) == if name in index then Some(index[name]) else None;
    }
  }

  method ValidateBoundPlugins(keys: seq<string>) returns (issues: seq<Issue>)
    ensures issues == BoundIssues(keys)
  {
    issues := [];
    var indexedByName: map<string, Origin> := map[];
    for i := 0 to |keys|
      invariant issues == BoundIssues(keys[..i])
      invariant Indexes(indexedByName, keys[..i])
    {
      var key := keys[i];
      assert keys[..i + 1][..i] == keys[..i];
      ghost var before := indexedByName;
      match DecomposePluginKey(key) {
        case Malformed =>
        case Parts(repo, name, version) =>
          assert FirstOrigin(keys[..i], name) == if name in indexedByName then Some(indexedByName[name]) else None;
          var newEntry := Origin(repo, version);
          if name !in indexedByName {
            indexedByName := indexedByName[name := newEntry];
          } else if indexedByName[name].repo != newEntry.repo {
            issues := issues + [ConflictingRepo(key)];
          } else if indexedByName[name].version != newEntry.version {
            issues := issues + [ConflictingVersion(key)];
          }
      }
      IndexesMore(before, keys[..i], indexedByName, keys[..i + 1]);
    }
    assert keys[..|keys|] == keys;
  }

  /** Keys that name the same plugin come from the same repository in the same version. */
  ghost predicate Consistent(keys: seq<string>) {
    forall a, b | a in keys && b in keys :: Compatible(a, b)
  }

  predicate Compatible(a: string, b: string) {
    DecomposePluginKey(a).Parts? && DecomposePluginKey(b).Parts?
      && DecomposePluginKey(a).name == DecomposePluginKey(b).name
    ==> DecomposePluginKey(a) == DecomposePluginKey(b)
  }

  lemma {:induction false} FirstOriginMeaning(keys: seq<string>, name: string)
    ensures FirstOrigin(keys, name).None? <==>
      forall k | k in keys :: DecomposePluginKey(k).Parts? ==> DecomposePluginKey(k).name != name
    ensures FirstOrigin(keys, name).Some? ==>
      exists k | k in keys ::
        DecomposePluginKey(k) == Parts(FirstOrigin(keys, name).value.repo, name, FirstOrigin(keys, name).value.version)
  {
    if keys != [] {
      var init, last := keys[..|keys| - 1], keys[|keys| - 1];
      FirstOriginMeaning(init, name);
      assert keys == init + [last];
      assert forall k :: k in keys <==> k in init || k == last;
      assert last in keys;
    }
  }

  ghost predicate CompatibleWithAll(keys: seq<string>, last: string) {
    forall k | k in keys :: Compatible(k, last)
  }

  ghost predicate AllRelated<T(!new)>(xs: seq<T>, x: T, related: (T, T) -> bool) {
    forall y | y in xs :: related(y, x)
  }

  /** Each element is related to those before it. */
  ghost predicate InTurn<T(!new)>(xs: seq<T>, related: (T, T) -> bool) {
    xs == [] || (InTurn(xs[..|xs| - 1], related) && AllRelated(xs[..|xs| - 1], xs[|xs| - 1], related))
  }

  ghost predicate Equable<T(!new)>(related: (T, T) -> bool) {
    (forall x :: related(x, x)) && forall x, y :: related(x, y) ==> related(y, x)
  }

  lemma {:induction false} InTurnMeaning<T(!new)>(xs: seq<T>, related: (T, T) -> bool)
    requires Equable(related)
    ensures InTurn(xs, related) <==> forall a, b | a in xs && b in xs :: related(a, b)
  {
    if xs != [] {
      var init, last := xs[..|xs| - 1], xs[|xs| - 1];
      InTurnMeaning(init, related);
      assert xs == init + [last];
      assert last in xs && forall x :: x in xs <==> x in init || x == last;
    }
  }

  ghost function Compatibility(): ((string, string) -> bool) {
    (a, b) => Compatible(a, b)
  }

  lemma ConsistentMeaning(keys: seq<string>)
    ensures InTurn(keys, Compatibility()) <==> Consistent(keys)
  {
    InTurnMeaning(keys, Compatibility());
    if Consistent(keys) {
      forall a, b | a in keys && b in keys ensures Compatibility()(a, b) {
        assert Compatible(a, b);
      }
    } else {
      var a, b :| a in keys && b in keys && !Compatible(a, b);
      assert !Compatibility()(a, b);
    }
  }

  lemma FirstOriginWitness(keys: seq<string>, name: string) returns (k: string)
    requires FirstOrigin(keys, name).Some?
    ensures k in keys
      && DecomposePluginKey(k) == Parts(FirstOrigin(keys, name).value.repo, name, FirstOrigin(keys, name).value.version)
  {
    FirstOriginMeaning(keys, name);
    var first := FirstOrigin(keys, name).value;
    k :| k in keys && DecomposePluginKey(k) == Parts(first.repo, name, first.version);
  }

  lemma CompatibleThrough(k: string, other: string, last: string)
    requires Compatible(other, k) && DecomposePluginKey(k) == DecomposePluginKey(last)
    ensures Compatible(other, last)
  {
  }

  lemma NewNameIsCompatible(keys: seq<string>, last: string)
    requires DecomposePluginKey(last).Parts? ==> FirstOrigin(keys, DecomposePluginKey(last).name).None?
    ensures CompatibleWithAll(keys, last)
  {
    if DecomposePluginKey(last).Parts? {
      FirstOriginMeaning(keys, DecomposePluginKey(last).name);
    }
  }

  lemma IssueIffIncompatible(keys: seq<string>, last: string)
    requires Consistent(keys)
    ensures IssueOf(keys, last) == [] <==> CompatibleWithAll(keys, last)
  {
    var p := DecomposePluginKey(last);
    if p.Malformed? || FirstOrigin(keys, p.name).None? {
      NewNameIsCompatible(keys, last);
    } else {
      var k := FirstOriginWitness(keys, p.name);
      assert IssueOf(keys, last) == [] <==> DecomposePluginKey(k) == p;
      if DecomposePluginKey(k) == p {
        forall other | other in keys ensures Compatible(other, last) {
          CompatibleThrough(k, other, last);
        }
      } else {
        assert !Compatible(k, last);
      }
    }
  }

  lemma {:induction false} NoIssuesSoFar(keys: seq<string>)
    ensures BoundIssues(keys) == [] <==> InTurn(keys, Compatibility())
  {
    if keys != [] {
      var init := keys[..|keys| - 1];
      NoIssuesSoFar(init);
      if InTurn(init, Compatibility()) {
        ConsistentMeaning(init);
        IssueIffIncompatible(init, keys[|keys| - 1]);
        assert CompatibleWithAll(init, keys[|keys| - 1]) <==>
          forall k | k in init :: Compatibility()(k, keys[|keys| - 1]);
      }
    }
  }

  /** No issue is reported exactly when all bound keys are consistent. */
  lemma NoBoundIssuesIffConsistent(keys: seq<string>)
    ensures BoundIssues(keys) == [] <==> Consistent(keys)
  {
    NoIssuesSoFar(keys);
    ConsistentMeaning(keys);
  }

  // ---- which issues are reported -------------------------------------------------

  predicate Names(key: string, name: string) {
    DecomposePluginKey(key).Parts? && DecomposePluginKey(key).name == name
  }

  /** The first key of the plugin name stands at `j`. */
  predicate FirstNamed(keys: seq<string>, name: string, j: nat) {
    j < |keys| && Names(keys[j], name) && forall k | 0 <= k < j :: !Names(keys[k], name)
  }

  /** The issue says how its key differs from another one of the same plugin name: by repository, or else by version. */
  predicate Differs(issue: Issue, other: string) {
    var q := DecomposePluginKey(other);
    match issue
    case ConflictingRepo(key) =>
      var p := DecomposePluginKey(key);
      p.Parts? && q.Parts? && p.name == q.name && p.repo != q.repo
    case ConflictingVersion(key) =>
      var p := DecomposePluginKey(key);
      p.Parts? && q.Parts? && p.name == q.name && p.repo == q.repo && p.version != q.version
    case _ => false
  }

  /** The issue is about the key at `i`, which differs from the first key of its name. */
  predicate ConflictAt(keys: seq<string>, issue: Issue, i: nat) {
    && i < |keys| && issue in [ConflictingRepo(keys[i]), ConflictingVersion(keys[i])]
    && exists j | 0 <= j < i :: FirstNamed(keys, DecomposedName(keys[i]), j) && Differs(issue, keys[j])
  }

  function DecomposedName(key: string): string {
    match DecomposePluginKey(key) case Malformed => "" case Parts(_, name, _) => name
  }

  lemma {:induction false} FirstOriginAt(keys: seq<string>, name: string)
    ensures FirstOrigin(keys, name).None? ==> forall j: nat :: !FirstNamed(keys, name, j)
    ensures FirstOrigin(keys, name).Some? ==>
      var first := FirstOrigin(keys, name).value;
      exists j: nat ::
        FirstNamed(keys, name, j) && DecomposePluginKey(keys[j]) == Parts(first.repo, name, first.version)
  {
    if keys != [] {
      var init, last := keys[..|keys| - 1], keys[|keys| - 1];
      FirstOriginAt(init, name);
      if FirstOrigin(init, name).Some? {
        var first := FirstOrigin(init, name).value;
        var j: nat :| FirstNamed(init, name, j)
          && DecomposePluginKey(init[j]) == Parts(first.repo, name, first.version);
        assert FirstNamed(keys, name, j);
      } else {
        NobodyNamed(init, name);
        assert forall k | 0 <= k < |init| :: keys[k] == init[k];
        assert FirstNamed(keys, name, |init|) <==> Names(last, name);
      }
    }
  }

  lemma {:induction false} NobodyNamed(keys: seq<string>, name: string)
    requires forall j: nat :: !FirstNamed(keys, name, j)
    ensures forall k | 0 <= k < |keys| :: !Names(keys[k], name)
  {
    if keys != [] {
      var init := keys[..|keys| - 1];
      forall j: nat ensures !FirstNamed(init, name, j) {
        assert FirstNamed(init, name, j) ==> FirstNamed(keys, name, j);
      }
      NobodyNamed(init, name);
      assert forall k | 0 <= k < |init| :: keys[k] == init[k];
      assert !FirstNamed(keys, name, |init|);
    }
  }

  lemma IssueOfMeaning(keys: seq<string>, i: nat, issue: Issue)
    requires i < |keys|
    ensures issue in IssueOf(keys[..i], keys[i]) <==> ConflictAt(keys, issue, i)
  {
    var init, key := keys[..i], keys[i];
    var name := DecomposedName(key);
    FirstOriginAt(init, name);
    forall j: nat | j < i ensures FirstNamed(init, name, j) <==> FirstNamed(keys, name, j) {
      assert forall k | 0 <= k <= j :: init[k] == keys[k];
    }
    if DecomposePluginKey(key).Parts? && FirstOrigin(init, name).Some? {
      var first := FirstOrigin(init, name).value;
      var j: nat :| FirstNamed(init, name, j) && DecomposePluginKey(init[j]) == Parts(first.repo, name, first.version);
      assert FirstNamed(keys, name, j);
      assert forall k: nat | k < i && FirstNamed(keys, name, k) :: k == j;
      assert issue in IssueOf(init, key) <==>
        issue in [ConflictingRepo(key), ConflictingVersion(key)] && Differs(issue, keys[j]);
    } else {
      assert IssueOf(init, key) == [];
    }
  }

  predicate IssuedAt(keys: seq<string>, issue: Issue, i: nat) {
    i < |keys| && issue in IssueOf(keys[..i], keys[i])
  }

  lemma BoundIssuesNext(keys: seq<string>, n: nat)
    requires n < |keys|
    ensures BoundIssues(keys[..n + 1]) == BoundIssues(keys[..n]) + IssueOf(keys[..n], keys[n])
  {
    assert keys[..n + 1][..n] == keys[..n];
  }

  lemma {:induction false} IssuedSomewhere(keys: seq<string>, n: nat, issue: Issue) returns (i: nat)
    requires n <= |keys| && issue in BoundIssues(keys[..n])
    ensures i < n && IssuedAt(keys, issue, i)
  {
    assert n != 0;
    BoundIssuesNext(keys, n - 1);
    if IssuedAt(keys, issue, n - 1) {
      i := n - 1;
    } else {
      i := IssuedSomewhere(keys, n - 1, issue);
    }
  }

  lemma IssuedNext(keys: seq<string>, n: nat, issue: Issue)
    requires n < |keys| && (issue in BoundIssues(keys[..n]) || IssuedAt(keys, issue, n))
    ensures issue in BoundIssues(keys[..n + 1])
  {
    BoundIssuesNext(keys, n);
  }

  lemma {:induction false} IssuedIsKept(keys: seq<string>, n: nat, issue: Issue, i: nat)
    requires i < n <= |keys| && IssuedAt(keys, issue, i)
    ensures issue in BoundIssues(keys[..n])
  {
    if i < n - 1 {
      IssuedIsKept(keys, n - 1, issue, i);
    }
    IssuedNext(keys, n - 1, issue);
  }

  /** What is reported: every key that differs from the first key of its plugin name, and how it differs. */
  lemma BoundIssuesMeaning(keys: seq<string>, issue: Issue)
    ensures issue in BoundIssues(keys) <==> exists i: nat :: ConflictAt(keys, issue, i)
  {
    assert keys[..|keys|] == keys;
    if issue in BoundIssues(keys) {
      var i := IssuedSomewhere(keys, |keys|, issue);
      IssueOfMeaning(keys, i, issue);
    }
    if i: nat :| ConflictAt(keys, issue, i) {
      IssueOfMeaning(keys, i, issue);
      IssuedIsKept(keys, |keys|, issue, i);
    }
  }

  /** Two keys of one name that differ are not both silent. */
  lemma ConflictIsReported(keys: seq<string>, a: string, b: string) returns (issue: Issue)
    requires a in keys && b in keys && !Compatible(a, b)
    ensures issue in BoundIssues(keys) && (issue.ConflictingRepo? || issue.ConflictingVersion?)
    ensures Names(issue.key, DecomposedName(a))
  {
    var name := DecomposedName(a);
    var i :| 0 <= i < |keys| && keys[i] == a;
    if forall j: nat :: !FirstNamed(keys, name, j) {
      NobodyNamed(keys, name);
      assert Names(keys[i], name);
    }
    var j: nat :| FirstNamed(keys, name, j);
    var differing := if DecomposePluginKey(keys[j]) != DecomposePluginKey(a) then a else b;
    var k :| 0 <= k < |keys| && keys[k] == differing;
    issue := if DecomposePluginKey(differing).repo != DecomposePluginKey(keys[j]).repo then ConflictingRepo(differing)
      else ConflictingVersion(differing);
    assert Differs(issue, keys[j]) && Names(differing, name);
    assert ConflictAt(keys, issue, k);
    BoundIssuesMeaning(keys, issue);
  }

  lemma ReportIsReal(keys: seq<string>, issue: Issue) returns (other: string)
    requires issue in BoundIssues(keys)
    ensures (issue.ConflictingRepo? || issue.ConflictingVersion?) && issue.key in keys
    ensures other in keys && Differs(issue, other)
  {
    BoundIssuesMeaning(keys, issue);
    var i: nat :| ConflictAt(keys, issue, i);
    var j :| 0 <= j < i && FirstNamed(keys, DecomposedName(keys[i]), j) && Differs(issue, keys[j]);
    other := keys[j];
  }

  // ---- the plugins of one group ------------------------------------------------

  function DefinedIssue(keys: seq<string>, key: string): seq<Issue> {
    if DecomposePluginKey(key).Malformed? then [MalformedKey(key)] else IssueOf(keys, key)
  }

  function DefinedIssues(keys: seq<string>): seq<Issue> {
    if keys == [] then [] else DefinedIssues(keys[..|keys| - 1]) + DefinedIssue(keys[..|keys| - 1], keys[|keys| - 1])
  }

  ghost predicate AllWellFormed(keys: seq<string>) {
    forall k | k in keys :: DecomposePluginKey(k).Parts?
  }

  lemma {:induction false} NoDefinedIssuesSoFar(keys: seq<string>)
    ensures DefinedIssues(keys) == [] <==> BoundIssues(keys) == [] && AllWellFormed(keys)
  {
    if keys != [] {
      var init, last := keys[..|keys| - 1], keys[|keys| - 1];
      NoDefinedIssuesSoFar(init);
      assert last in keys && (forall k | k in init :: k in keys) && forall k | k in keys :: k in init || k == last;
    }
  }

  lemma {:induction false} DefinedIssuesMeaning(keys: seq<string>, issue: Issue)
    ensures issue in DefinedIssues(keys) <==>
      issue in BoundIssues(keys) || exists k | k in keys :: DecomposePluginKey(k).Malformed? && issue == MalformedKey(k)
  {
    if keys != [] {
      var init, last := keys[..|keys| - 1], keys[|keys| - 1];
      DefinedIssuesMeaning(init, issue);
      assert last in keys && (forall k | k in init :: k in keys) && forall k | k in keys :: k in init || k == last;
    }
  }

  /** The issue is about enabled plugins of the group: one with a malformed key, or two that differ. */
  ghost predicate RealPluginIssue(plugins: Plugins, issue: Issue) {
    match issue
    case MalformedKey(key) => key in plugins && plugins[key].enabled && DecomposePluginKey(key).Malformed?
    case ConflictingRepo(key) => DiffersIn(plugins, issue, key)
    case ConflictingVersion(key) => DiffersIn(plugins, issue, key)
    case _ => false
  }

  ghost predicate DiffersIn(plugins: Plugins, issue: Issue, key: string) {
    && key in plugins && plugins[key].enabled
    && exists other | other in plugins && plugins[other].enabled :: Differs(issue, other)
  }

  lemma DefinedIssuesAreReal(plugins: Plugins, keys: seq<string>)
    requires forall key :: key in keys <==> key in plugins && plugins[key].enabled
    ensures forall issue | issue in DefinedIssues(keys) :: RealPluginIssue(plugins, issue)
    ensures forall key | key in plugins && plugins[key].enabled && DecomposePluginKey(key).Malformed? ::
      MalformedKey(key) in DefinedIssues(keys)
  {
    forall issue | issue in DefinedIssues(keys) ensures RealPluginIssue(plugins, issue) {
      DefinedIssuesMeaning(keys, issue);
      if issue in BoundIssues(keys) {
        var other := ReportIsReal(keys, issue);
        assert DiffersIn(plugins, issue, issue.key);
      }
    }
    forall key | key in plugins && plugins[key].enabled && DecomposePluginKey(key).Malformed?
      ensures MalformedKey(key) in DefinedIssues(keys)
    {
      assert key in keys;
      DefinedIssuesMeaning(keys, MalformedKey(key));
    }
  }

  /** The enabled keys of a group are well-formed and consistent. */
  ghost predicate WellDefined(plugins: Plugins) {
    && (forall key | key in plugins && plugins[key].enabled :: DecomposePluginKey(key).Parts?)
    && (forall a, b | a in plugins && plugins[a].enabled && b in plugins && plugins[b].enabled :: Compatible(a, b))
  }

  lemma WellDefinedKeys(plugins: Plugins, keys: seq<string>)
    requires forall key :: key in keys <==> key in plugins && plugins[key].enabled
    ensures WellDefined(plugins) <==> AllWellFormed(keys) && Consistent(keys)
  {
    if WellDefined(plugins) {
      forall a, b | a in keys && b in keys ensures Compatible(a, b) {
      }
    }
    if Consistent(keys) {
      forall a, b | a in plugins && plugins[a].enabled && b in plugins && plugins[b].enabled ensures Compatible(a, b) {
        assert a in keys && b in keys;
      }
    }
  }

  /** Reports nothing exactly for well-defined groups. */
  method ValidatePlugins(plugins: Plugins) returns (issues: seq<Issue>)
    ensures issues == [] <==> WellDefined(plugins)
    ensures forall issue | issue in issues :: RealPluginIssue(plugins, issue)
    ensures forall key | key in plugins && plugins[key].enabled && DecomposePluginKey(key).Malformed? ::
      MalformedKey(key) in issues
  {
    var enabled: set<string> := {};
    var rest := plugins.Keys;
    while rest != {}
      invariant rest <= plugins.Keys
      invariant forall key :: key in enabled <==> key in plugins.Keys - rest && plugins[key].enabled
    {
      var key :| key in rest;
      rest := rest - {key};
      if plugins[key].enabled {
        enabled := enabled + {key};
      }
    }
    var keys := SortKeys(enabled);
    issues := CheckDefined(keys);
    NoDefinedIssuesSoFar(keys);
    NoBoundIssuesIffConsistent(keys);
    WellDefinedKeys(plugins, keys);
    DefinedIssuesAreReal(plugins, keys);
  }

  lemma DefinedIssueByIndex(keys: seq<string>, key: string, index: map<string, Origin>)
    requires Indexes(index, keys)
    ensures match DecomposePluginKey(key)
            case Malformed => DefinedIssue(keys, key) == [MalformedKey(key)]
            case Parts(repo, name, version) =>
              && (name !in index || index[name] == Origin(repo, version) ==> DefinedIssue(keys, key) == [])
              && (name in index && index[name].repo != repo ==> DefinedIssue(keys, key) == [ConflictingRepo(key)])
              && (name in index && index[name].repo == repo && index[name].version != version ==>
                    DefinedIssue(keys, key) == [ConflictingVersion(key)])
  {
    var p := DecomposePluginKey(key);
    if p.Parts? {
      assert FirstOrigin(keys, p.name) == if p.name in index then Some(index[p.name]) else None;
    }
  }

  /** One turn of the loop. */
  method CheckKey(ghost seen: seq<string>, ghost all: seq<string>, key: string, indexedByName: map<string, Origin>)
    returns (next: map<string, Origin>, issues: seq<Issue>)
    requires Indexes(indexedByName, seen) && all == seen + [key]
    ensures Indexes(next, all) && issues == DefinedIssue(seen, key)
  {
    next, issues := indexedByName, [];
    DefinedIssueByIndex(seen, key, indexedByName);
    match DecomposePluginKey(key) {
      case Malformed => issues := [MalformedKey(key)];
      case Parts(repo, name, version) =>
        var newEntry := Origin(repo, version);
        if name !in indexedByName {
          next := indexedByName[name := newEntry];
        } else if indexedByName[name].repo != newEntry.repo {
          issues := [ConflictingRepo(key)];
        } else if indexedByName[name].version != newEntry.version {
          issues := [ConflictingVersion(key)];
        }
    }
    assert all[..|all| - 1] == seen;
    IndexesMore(indexedByName, seen, next, all);
  }

  method CheckDefined(keys: seq<string>) returns (issues: seq<Issue>)
    ensures issues == DefinedIssues(keys)
  {
    issues := [];
    var indexedByName: map<string, Origin> := map[];
    for i := 0 to |keys|
      invariant issues == DefinedIssues(keys[..i])
      invariant Indexes(indexedByName, keys[..i])
    {
      var next, more := CheckKey(keys[..i], keys[..i + 1], keys[i], indexedByName);
      assert keys[..i + 1][..i] == keys[..i];
      issues, indexedByName := issues + more, next;
    }
    assert keys[..|keys|] == keys;
  }

  // ---- equal access rules for one plugin -------------------------------------

  /** The bound groups that enable a plugin, in binding order. */
  function Occurrences(groups: Groups, bindings: seq<string>, key: string): seq<string> {
    if bindings == [] then []
    else
      var last := bindings[|bindings| - 1];
      Occurrences(groups, bindings[..|bindings| - 1], key) + (if EnabledIn(groups, last, key) then [last] else [])
  }

  lemma {:induction false} OccurrencesMeaning(groups: Groups, bindings: seq<string>, key: string, name: string)
    ensures name in Occurrences(groups, bindings, key) <==> name in bindings && EnabledIn(groups, name, key)
  {
    if bindings != [] {
      OccurrencesMeaning(groups, bindings[..|bindings| - 1], key, name);
      assert bindings == bindings[..|bindings| - 1] + [bindings[|bindings| - 1]];
    }
  }

  ghost predicate SameRBAC(groups: Groups, bindings: seq<string>, key: string) {
    forall a, b | a in bindings && b in bindings && EnabledIn(groups, a, key) && EnabledIn(groups, b, key) ::
      RulesOf(groups, a, key) == RulesOf(groups, b, key)
  }

  /** The issue is real: both groups are bound and enable the plugin under different rules. */
  predicate RealConflict(groups: Groups, bindings: seq<string>, issue: Issue) {
    && issue.ConflictingRBAC?
    && issue.head in bindings && issue.next in bindings
    && EnabledIn(groups, issue.head, issue.key) && EnabledIn(groups, issue.next, issue.key)
    && RulesOf(groups, issue.head, issue.key) != RulesOf(groups, issue.next, issue.key)
  }

  function GroupedUnder(grouped: map<string, seq<string>>, key: string): seq<string> {
    if key in grouped then grouped[key] else []
  }

  /** Adds one bound group to the groupings of the plugins it enables. */
  method GroupBinding(groups: Groups, grouped: map<string, seq<string>>, name: string)
    returns (out: map<string, seq<string>>)
    ensures forall key ::
      GroupedUnder(out, key) == GroupedUnder(grouped, key) + (if EnabledIn(groups, name, key) then [name] else [])
  {
    out := grouped;
    var plugins := PluginsOf(groups, name);
    var keys := plugins.Keys;
    while keys != {}
      invariant keys <= plugins.Keys
      invariant forall key ::
        GroupedUnder(out, key)
        == if key in plugins.Keys - keys && plugins[key].enabled then GroupedUnder(grouped, key) + [name]
          else GroupedUnder(grouped, key)
    {
      var key :| key in keys;
      keys := keys - {key};
      if plugins[key].enabled {
        out := out[key := GroupedUnder(out, key) + [name]];
      }
    }
  }

  ghost predicate ReportsRules(issues: seq<Issue>, key: string) {
    exists issue | issue in issues :: issue.ConflictingRBAC? && issue.key == key
  }

  lemma MoreRules(issues: seq<Issue>, more: seq<Issue>)
    ensures forall key :: ReportsRules(issues + more, key) <==> ReportsRules(issues, key) || ReportsRules(more, key)
  {
    assert forall issue :: issue in issues + more <==> issue in issues || issue in more;
  }

  /** Compares the rules of the first group that enables a plugin with those of the others. */
  method CompareRBAC(groups: Groups, bindings: seq<string>, key: string, occurrences: seq<string>)
    returns (issues: seq<Issue>)
    requires occurrences == Occurrences(groups, bindings, key)
    ensures issues == [] <==> SameRBAC(groups, bindings, key)
    ensures forall issue | issue in issues :: RealConflict(groups, bindings, issue) && issue.key == key
  {
    issues := [];
    forall name ensures name in occurrences <==> name in bindings && EnabledIn(groups, name, key) {
      OccurrencesMeaning(groups, bindings, key, name);
    }
    if |occurrences| < 2 {
      return;
    }
    var head := occurrences[0];
    assert head in occurrences;
    for i := 1 to |occurrences|
      invariant issues == [] <==>
        forall j | 1 <= j < i :: RulesOf(groups, occurrences[j], key) == RulesOf(groups, head, key)
      invariant forall issue | issue in issues :: RealConflict(groups, bindings, issue) && issue.key == key
    {
      var next := occurrences[i];
      assert next in occurrences;
      if groups[head][key].rbac != groups[next][key].rbac {
        issues := issues + [ConflictingRBAC(key, head, next)];
      }
    }
    if issues == [] {
      forall a, b | a in bindings && b in bindings && EnabledIn(groups, a, key) && EnabledIn(groups, b, key)
        ensures RulesOf(groups, a, key) == RulesOf(groups, b, key)
      {
        assert a in occurrences && b in occurrences;
      }
    } else {
      var j :| 1 <= j < |occurrences| && RulesOf(groups, occurrences[j], key) != RulesOf(groups, head, key);
      assert occurrences[j] in occurrences;
    }
  }

  method ValidatePluginRBAC(groups: Groups, bindings: seq<string>) returns (issues: seq<Issue>)
    ensures issues == [] <==> forall key :: SameRBAC(groups, bindings, key)
    ensures forall issue | issue in issues :: RealConflict(groups, bindings, issue)
    ensures forall key :: SameRBAC(groups, bindings, key) || ReportsRules(issues, key)
  {
    var grouped: map<string, seq<string>> := map[];
    for i := 0 to |bindings|
      invariant forall key :: GroupedUnder(grouped, key) == Occurrences(groups, bindings[..i], key)
    {
      grouped := GroupBinding(groups, grouped, bindings[i]);
      assert bindings[..i + 1][..i] == bindings[..i];
    }
    assert bindings[..|bindings|] == bindings;
    issues := [];
    var keys := grouped.Keys;
    while keys != {}
      invariant keys <= grouped.Keys
      invariant issues == [] <==> forall key | key in grouped.Keys - keys :: SameRBAC(groups, bindings, key)
      invariant forall issue | issue in issues :: RealConflict(groups, bindings, issue)
      invariant forall key | key in grouped.Keys - keys ::
        SameRBAC(groups, bindings, key) || ReportsRules(issues, key)
    {
      var key :| key in keys;
      assert GroupedUnder(grouped, key) == Occurrences(groups, bindings, key);
      var more := CompareRBAC(groups, bindings, key, grouped[key]);
      MoreRules(issues, more);
      assert more != [] ==> more[0] in more && ReportsRules(more, key);
      issues, keys := issues + more, keys - {key};
    }
    forall key | key !in grouped ensures SameRBAC(groups, bindings, key) {
      assert GroupedUnder(grouped, key) == Occurrences(groups, bindings, key) == [];
      forall name { OccurrencesMeaning(groups, bindings, key, name); }
    }
  }

  // ---- the validator ---------------------------------------------------------

  ghost predicate Bound(groups: Groups, bindings: seq<string>, key: string) {
    exists name | name in bindings :: EnabledIn(groups, name, key)
  }

  /** What the validator promises about the bindings of a channel. */
  ghost predicate Accepted(groups: Groups, bindings: seq<string>) {
    && (forall name | name in bindings :: name in groups)
    && (forall a, b | Bound(groups, bindings, a) && Bound(groups, bindings, b) :: Compatible(a, b))
    && (forall key :: SameRBAC(groups, bindings, key))
  }

  method CollectEnabled(groups: Groups, bindings: seq<string>) returns (keys: seq<string>, issues: seq<Issue>)
    ensures forall key :: key in keys <==> Bound(groups, bindings, key)
    ensures issues == [] <==> forall name | name in bindings :: name in groups
    ensures forall issue | issue in issues :: issue.UnknownBinding? && issue.name in bindings && issue.name !in groups
    ensures forall name | name in bindings && name !in groups :: UnknownBinding(name) in issues
  {
    keys, issues := [], [];
    for i := 0 to |bindings|
      invariant forall key :: key in keys <==> exists j | 0 <= j < i :: EnabledIn(groups, bindings[j], key)
      invariant issues == [] <==> forall j | 0 <= j < i :: bindings[j] in groups
      invariant forall issue | issue in issues ::
        issue.UnknownBinding? && issue.name in bindings && issue.name !in groups
      invariant forall j | 0 <= j < i && bindings[j] !in groups :: UnknownBinding(bindings[j]) in issues
    {
      if bindings[i] !in groups {
        issues := issues + [UnknownBinding(bindings[i])];
      }
      ghost var before := keys;
      var plugins := PluginsOf(groups, bindings[i]);
      var rest := plugins.Keys;
      while rest != {}
        invariant rest <= plugins.Keys
        invariant forall key :: key in keys <==> key in before || (key in plugins.Keys - rest && plugins[key].enabled)
      {
        var key :| key in rest;
        rest := rest - {key};
        if plugins[key].enabled {
          keys := keys + [key];
        }
      }
    }
  }

  /** What acceptance comes to, group by group. */
  lemma AcceptedMeaning(groups: Groups, bindings: seq<string>)
    ensures Accepted(groups, bindings) <==>
      && (forall name | name in bindings :: name in groups)
      && (forall g, h, a, b | g in bindings && h in bindings && a in groups[g] && b in groups[h]
                              && groups[g][a].enabled && groups[h][b].enabled :: Compatible(a, b))
      && (forall g, h, key | g in bindings && h in bindings && key in groups[g] && key in groups[h]
                             && groups[g][key].enabled && groups[h][key].enabled ::
            groups[g][key].rbac == groups[h][key].rbac)
  {
    if forall name | name in bindings :: name in groups {
      forall g, key | g in bindings ensures EnabledIn(groups, g, key) <==> key in groups[g] && groups[g][key].enabled {
      }
      if Accepted(groups, bindings) {
        forall g, h, a, b | g in bindings && h in bindings && a in groups[g] && b in groups[h]
                            && groups[g][a].enabled && groups[h][b].enabled
          ensures Compatible(a, b)
        {
          assert EnabledIn(groups, g, a) && EnabledIn(groups, h, b);
        }
        forall g, h, key | g in bindings && h in bindings && key in groups[g] && key in groups[h]
                           && groups[g][key].enabled && groups[h][key].enabled
          ensures groups[g][key].rbac == groups[h][key].rbac
        {
          assert SameRBAC(groups, bindings, key) && EnabledIn(groups, g, key) && EnabledIn(groups, h, key);
          assert RulesOf(groups, g, key) == RulesOf(groups, h, key);
        }
      }
    }
  }

  /** The issue is about what is bound: an unknown group, two keys that differ, or one key under different rules. */
  ghost predicate RealIssue(groups: Groups, bindings: seq<string>, issue: Issue) {
    match issue
    case UnknownBinding(name) => name in bindings && name !in groups
    case MalformedKey(_) => false
    case ConflictingRepo(key) =>
      Bound(groups, bindings, key) && exists other :: Bound(groups, bindings, other) && Differs(issue, other)
    case ConflictingVersion(key) =>
      Bound(groups, bindings, key) && exists other :: Bound(groups, bindings, other) && Differs(issue, other)
    case ConflictingRBAC(_, _, _) => RealConflict(groups, bindings, issue)
  }

  /** Every way in which the bindings are not accepted is reported. */
  ghost predicate ReportsAll(groups: Groups, bindings: seq<string>, issues: seq<Issue>) {
    && (forall name | name in bindings && name !in groups :: UnknownBinding(name) in issues)
    && (forall a, b | Bound(groups, bindings, a) && Bound(groups, bindings, b) && !Compatible(a, b) ::
          ReportsName(issues, DecomposedName(a)))
    && (forall key :: SameRBAC(groups, bindings, key) || ReportsRules(issues, key))
  }

  ghost predicate ReportsName(issues: seq<Issue>, name: string) {
    exists issue | issue in issues :: (issue.ConflictingRepo? || issue.ConflictingVersion?) && Names(issue.key, name)
  }

  ghost predicate AllReal(groups: Groups, bindings: seq<string>, issues: seq<Issue>) {
    forall issue | issue in issues :: RealIssue(groups, bindings, issue)
  }

  lemma ConflictsAreReal(groups: Groups, bindings: seq<string>, keys: seq<string>)
    requires forall key :: key in keys <==> Bound(groups, bindings, key)
    ensures AllReal(groups, bindings, BoundIssues(keys))
    ensures forall a, b | Bound(groups, bindings, a) && Bound(groups, bindings, b) && !Compatible(a, b) ::
      ReportsName(BoundIssues(keys), DecomposedName(a))
  {
    forall issue | issue in BoundIssues(keys) ensures RealIssue(groups, bindings, issue) {
      var other := ReportIsReal(keys, issue);
      assert Bound(groups, bindings, other);
    }
    forall a, b | Bound(groups, bindings, a) && Bound(groups, bindings, b) && !Compatible(a, b)
      ensures ReportsName(BoundIssues(keys), DecomposedName(a))
    {
      var issue := ConflictIsReported(keys, a, b);
    }
  }

  lemma AllParts(groups: Groups, bindings: seq<string>, unknown: seq<Issue>, conflicts: seq<Issue>, rbac: seq<Issue>)
    requires AllReal(groups, bindings, unknown) && AllReal(groups, bindings, conflicts)
      && AllReal(groups, bindings, rbac)
    requires forall name | name in bindings && name !in groups :: UnknownBinding(name) in unknown
    requires forall a, b | Bound(groups, bindings, a) && Bound(groups, bindings, b) && !Compatible(a, b) ::
      ReportsName(conflicts, DecomposedName(a))
    requires forall key :: SameRBAC(groups, bindings, key) || ReportsRules(rbac, key)
    ensures AllReal(groups, bindings, unknown + conflicts + rbac)
    ensures ReportsAll(groups, bindings, unknown + conflicts + rbac)
  {
    var issues := unknown + conflicts + rbac;
    assert forall issue :: issue in issues <==> issue in unknown || issue in conflicts || issue in rbac;
    MoreRules(unknown + conflicts, rbac);
    forall name | ReportsName(conflicts, name) ensures ReportsName(issues, name) {
      var issue :| issue in conflicts && (issue.ConflictingRepo? || issue.ConflictingVersion?)
        && Names(issue.key, name);
      assert issue in issues;
    }
  }

  lemma RealIssueRefutes(groups: Groups, bindings: seq<string>, issue: Issue)
    requires RealIssue(groups, bindings, issue)
    ensures !Accepted(groups, bindings)
  {
    if issue.ConflictingRBAC? {
      assert !SameRBAC(groups, bindings, issue.key);
    } else if issue.ConflictingRepo? || issue.ConflictingVersion? {
      var other :| Bound(groups, bindings, other) && Differs(issue, other);
      assert !Compatible(issue.key, other);
    }
  }

  lemma SilenceIsAcceptance(groups: Groups, bindings: seq<string>, issues: seq<Issue>)
    requires AllReal(groups, bindings, issues) && ReportsAll(groups, bindings, issues)
    ensures issues == [] <==> Accepted(groups, bindings)
  {
    if issues != [] {
      assert issues[0] in issues;
      RealIssueRefutes(groups, bindings, issues[0]);
    }
  }

  /** Reports nothing exactly for accepted bindings, and otherwise everything that is wrong and nothing else. */
  method ValidateExecutorBindings(groups: Groups, bindings: seq<string>) returns (issues: seq<Issue>)
    ensures issues == [] <==> Accepted(groups, bindings)
    ensures AllReal(groups, bindings, issues) && ReportsAll(groups, bindings, issues)
  {
    var enabledKeys, unknown := CollectEnabled(groups, bindings);
    var conflicts := ValidateBoundPlugins(enabledKeys);
    var rbac := ValidatePluginRBAC(groups, bindings);
    ConflictsAreReal(groups, bindings, enabledKeys);
    AllParts(groups, bindings, unknown, conflicts, rbac);
    issues := unknown + conflicts + rbac;
    SilenceIsAcceptance(groups, bindings, issues);
  }
}
