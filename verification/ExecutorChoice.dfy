/**
 The executor a command selects at run time, for every order in which Go iterates the plugins of the bound groups,
 and what validation buys for it.
 */
module ExecutorChoice {
  import opened Options
  import opened PluginKeys
  import opened MapOrders
  import opened Searches
  import opened Validation

  const NO_PLUGIN := Plugin(false, None, None)

  /** The name a command has to give; a malformed key has the empty name. */
  function CommandName(key: string): string {
    match DecomposePluginKey(key)
    case Malformed => ""
    case Parts(_, name, _) => name
  }

  /** The keys of a group's enabled plugins for the command. */
  function Hits(groups: Groups, name: string, cmd: string): set<string> {
    set k | k in PluginsOf(groups, name) && PluginsOf(groups, name)[k].enabled && CommandName(k) == cmd
  }

  /** The hits of all bindings. */
  function AllHits(groups: Groups, bindings: seq<string>, cmd: string): seq<set<string>> {
    seq(|bindings|, i requires 0 <= i < |bindings| => Hits(groups, bindings[i], cmd))
  }

  /** For every binding an order of its group's plugins. */
  type Orders = seq<seq<string>>

  ghost predicate IterationOrders(groups: Groups, bindings: seq<string>, orders: Orders) {
    |orders| == |bindings| && forall i | 0 <= i < |bindings| :: IsOrder(orders[i], PluginsOf(groups, bindings[i]).Keys)
  }

  /** The keys found through each binding when the maps are iterated in these orders. */
  function KeptBy(groups: Groups, bindings: seq<string>, orders: Orders, cmd: string): seq<seq<string>>
    requires |orders| <= |bindings|
  {
    seq(|orders|, i requires 0 <= i < |orders| => Kept(orders[i], Hits(groups, bindings[i], cmd)))
  }

  function PluginFound(groups: Groups, bindings: seq<string>): Found -> Plugin {
    (f: Found) =>
      if f.position < |bindings| && f.key in PluginsOf(groups, bindings[f.position])
      then PluginsOf(groups, bindings[f.position])[f.key] else NO_PLUGIN
  }

  /** Everything a command finds, in the order found. */
  function Finds(groups: Groups, bindings: seq<string>, orders: Orders, cmd: string): seq<Found>
    requires |orders| <= |bindings|
  {
    Flat(KeptBy(groups, bindings, orders, cmd), |orders|)
  }

  /** The full plugin name a command runs. */
  function Chosen(groups: Groups, bindings: seq<string>, orders: Orders, cmd: string): string
    requires |orders| <= |bindings|
  {
    LastKey(Finds(groups, bindings, orders, cmd))
  }

  /** The configurations a command hands to the plugin; the first one's rules become its permissions. */
  function Configs(groups: Groups, bindings: seq<string>, orders: Orders, cmd: string): seq<Plugin>
    requires |orders| <= |bindings|
  {
    Valued(Finds(groups, bindings, orders, cmd), PluginFound(groups, bindings))
  }

  // ---- the search ------------------------------------------------------------------

  /** The configurations of these keys, in this order. */
  function PluginsAt(plugins: map<string, Plugin>, keys: seq<string>): seq<Plugin> {
    seq(|keys|, j requires 0 <= j < |keys| => if keys[j] in plugins then plugins[keys[j]] else NO_PLUGIN)
  }

  /** The result of a search that has found these keys in one more group. */
  predicate Extends(plugins: map<string, Plugin>, keys: seq<string>, before: seq<Plugin>, nameBefore: string,
                    out: seq<Plugin>, name: string) {
    out == before + PluginsAt(plugins, keys) && name == if keys == [] then nameBefore else keys[|keys| - 1]
  }

  lemma KeptNext(order: seq<string>, j: nat, keep: set<string>)
    requires j < |order|
    ensures Kept(order[..j + 1], keep) == Kept(order[..j], keep) + if order[j] in keep then [order[j]] else []
  {
    assert order[..j + 1][..j] == order[..j];
  }

  lemma ExtendsSkipped(plugins: map<string, Plugin>, hits: set<string>, order: seq<string>, j: nat,
                       before: seq<Plugin>, nameBefore: string, out: seq<Plugin>, name: string)
    requires j < |order| && order[j] !in hits
    requires Extends(plugins, Kept(order[..j], hits), before, nameBefore, out, name)
    ensures Extends(plugins, Kept(order[..j + 1], hits), before, nameBefore, out, name)
  {
    KeptNext(order, j, hits);
    assert Kept(order[..j + 1], hits) == Kept(order[..j], hits);
  }

  lemma ExtendsFound(plugins: map<string, Plugin>, hits: set<string>, order: seq<string>, j: nat,
                     before: seq<Plugin>, nameBefore: string, out: seq<Plugin>, name: string)
    requires j < |order| && order[j] in hits && order[j] in plugins
    requires Extends(plugins, Kept(order[..j], hits), before, nameBefore, out, name)
    ensures Extends(plugins, Kept(order[..j + 1], hits), before, nameBefore, out + [plugins[order[j]]], order[j])
  {
    KeptNext(order, j, hits);
    assert PluginsAt(plugins, Kept(order[..j + 1], hits))
        == PluginsAt(plugins, Kept(order[..j], hits)) + [plugins[order[j]]];
  }

  /** Searches one group; the last plugin found names the executor. */
  method SearchGroup(groups: Groups, name: string, cmd: string, order: seq<string>, before: seq<Plugin>,
                     nameBefore: string)
    returns (out: seq<Plugin>, fullPluginName: string)
    requires IsOrder(order, PluginsOf(groups, name).Keys)
    ensures Extends(PluginsOf(groups, name), Kept(order, Hits(groups, name, cmd)), before, nameBefore, out,
                    fullPluginName)
  {
    var plugins := PluginsOf(groups, name);
    ghost var hits := Hits(groups, name, cmd);
    out, fullPluginName := before, nameBefore;
    for j := 0 to |order|
      invariant Extends(plugins, Kept(order[..j], hits), before, nameBefore, out, fullPluginName)
    {
      var pluginKey := order[j];
      assert pluginKey in order;
      if !plugins[pluginKey].enabled {
        ExtendsSkipped(plugins, hits, order, j, before, nameBefore, out, fullPluginName);
        continue;
      }
      var pluginName := CommandName(pluginKey);
      if pluginName != cmd {
        ExtendsSkipped(plugins, hits, order, j, before, nameBefore, out, fullPluginName);
        continue;
      }
      ExtendsFound(plugins, hits, order, j, before, nameBefore, out, fullPluginName);
      fullPluginName := pluginKey;
      out := out + [plugins[pluginKey]];
    }
    assert order[..|order|] == order;
  }

  lemma KeptByNext(groups: Groups, bindings: seq<string>, orders: Orders, order: seq<string>, cmd: string)
    requires |orders| < |bindings|
    ensures KeptBy(groups, bindings, orders + [order], cmd)
      == KeptBy(groups, bindings, orders, cmd) + [Kept(order, Hits(groups, bindings[|orders|], cmd))]
  {
  }

  lemma SearchNext(groups: Groups, bindings: seq<string>, orders: Orders, order: seq<string>, cmd: string)
    requires |orders| < |bindings|
    ensures var keys := Kept(order, Hits(groups, bindings[|orders|], cmd));
            && Configs(groups, bindings, orders + [order], cmd)
               == Configs(groups, bindings, orders, cmd)
                 + Valued(FoundAt(|orders|, keys), PluginFound(groups, bindings))
            && Chosen(groups, bindings, orders + [order], cmd)
               == if keys == [] then Chosen(groups, bindings, orders, cmd) else keys[|keys| - 1]
  {
    var kept := KeptBy(groups, bindings, orders, cmd);
    var keys := Kept(order, Hits(groups, bindings[|orders|], cmd));
    KeptByNext(groups, bindings, orders, order, cmd);
    NextMap(kept, keys, PluginFound(groups, bindings));
  }

  lemma FoundInBinding(groups: Groups, bindings: seq<string>, i: nat, keys: seq<string>)
    requires i < |bindings|
    ensures Valued(FoundAt(i, keys), PluginFound(groups, bindings)) == PluginsAt(PluginsOf(groups, bindings[i]), keys)
  {
    forall j | 0 <= j < |keys|
      ensures PluginFound(groups, bindings)(FoundAt(i, keys)[j]) == PluginsAt(PluginsOf(groups, bindings[i]), keys)[j]
    {
      assert FoundAt(i, keys)[j] == Found(i, keys[j]);
    }
  }

  /** What the search returns after `i` bindings, when their maps were iterated in these orders. */
  ghost predicate Through(groups: Groups, bindings: seq<string>, orders: Orders, cmd: string, i: nat,
                          out: seq<Plugin>, name: string) {
    && |orders| == i <= |bindings|
    && (forall j | 0 <= j < i :: IsOrder(orders[j], PluginsOf(groups, bindings[j]).Keys))
    && out == Configs(groups, bindings, orders, cmd)
    && name == Chosen(groups, bindings, orders, cmd)
  }

  lemma ThroughNext(groups: Groups, bindings: seq<string>, orders: Orders, order: seq<string>, cmd: string, i: nat,
                    before: seq<Plugin>, nameBefore: string, out: seq<Plugin>, name: string)
    requires Through(groups, bindings, orders, cmd, i, before, nameBefore) && i < |bindings|
    requires IsOrder(order, PluginsOf(groups, bindings[i]).Keys)
    requires Extends(PluginsOf(groups, bindings[i]), Kept(order, Hits(groups, bindings[i], cmd)), before, nameBefore,
                     out, name)
    ensures Through(groups, bindings, orders + [order], cmd, i + 1, out, name)
  {
    SearchNext(groups, bindings, orders, order, cmd);
    FoundInBinding(groups, bindings, i, Kept(order, Hits(groups, bindings[i], cmd)));
  }

  lemma OrdersGiveOutcome(groups: Groups, bindings: seq<string>, orders: Orders, cmd: string)
    requires IterationOrders(groups, bindings, orders)
    ensures Outcome(KeptBy(groups, bindings, orders, cmd), AllHits(groups, bindings, cmd))
  {
    forall i | 0 <= i < |bindings|
      ensures IsOrder(KeptBy(groups, bindings, orders, cmd)[i], AllHits(groups, bindings, cmd)[i]) {
      KeptIsOrder(orders[i], PluginsOf(groups, bindings[i]).Keys, Hits(groups, bindings[i], cmd));
    }
  }

  // ---- what a search finds -------------------------------------------------------------

  /** The group has the plugin enabled under a key with the name of the command, whatever repository and version. */
  predicate Answers(groups: Groups, name: string, key: string, cmd: string) {
    && name in groups && key in groups[name] && groups[name][key].enabled
    && match DecomposePluginKey(key)
       case Malformed => cmd == ""
       case Parts(_, pluginName, _) => pluginName == cmd
  }

  lemma AllFound(groups: Groups, bindings: seq<string>, orders: Orders, cmd: string, f: Found)
    requires IterationOrders(groups, bindings, orders)
    ensures f in Finds(groups, bindings, orders, cmd)
      <==> f.position < |bindings| && Answers(groups, bindings[f.position], f.key, cmd)
  {
    var hits, kept := AllHits(groups, bindings, cmd), KeptBy(groups, bindings, orders, cmd);
    OrdersGiveOutcome(groups, bindings, orders, cmd);
    if j :| 0 <= j < |Finds(groups, bindings, orders, cmd)| && Finds(groups, bindings, orders, cmd)[j] == f {
      FoundIsHit(kept, hits, |hits|, j);
      assert hits[f.position] == Hits(groups, bindings[f.position], cmd);
    }
    if f.position < |bindings| && Answers(groups, bindings[f.position], f.key, cmd) {
      assert f.key in Hits(groups, bindings[f.position], cmd);
      HitIsFound(kept, hits, |hits|, f.position, f.key);
    }
  }

  /**
   In every order of iteration exactly the keys of the command are found, each once, binding by binding, and each gives
   its own configuration.
   */
  lemma FindsMeaning(groups: Groups, bindings: seq<string>, orders: Orders, cmd: string)
    requires IterationOrders(groups, bindings, orders)
    ensures var found := Finds(groups, bindings, orders, cmd);
            && (forall f :: f in found
                  <==> f.position < |bindings| && Answers(groups, bindings[f.position], f.key, cmd))
            && (forall j, k | 0 <= j < k < |found| ::
                  found[j].position <= found[k].position && found[j] != found[k])
            && |Configs(groups, bindings, orders, cmd)| == |found|
            && (forall j | 0 <= j < |found| ::
                  Configs(groups, bindings, orders, cmd)[j] == groups[bindings[found[j].position]][found[j].key])
  {
    var found := Finds(groups, bindings, orders, cmd);
    forall f { AllFound(groups, bindings, orders, cmd, f); }
    OrdersGiveOutcome(groups, bindings, orders, cmd);
    forall j, k | 0 <= j < k < |found|
      ensures found[j].position <= found[k].position && found[j] != found[k]
    {
      FoundInOrder(KeptBy(groups, bindings, orders, cmd), AllHits(groups, bindings, cmd), |bindings|, j, k);
    }
    forall j | 0 <= j < |found|
      ensures Configs(groups, bindings, orders, cmd)[j] == groups[bindings[found[j].position]][found[j].key]
    {
      assert found[j] in found;
    }
  }

  ghost predicate Among(groups: Groups, bindings: seq<string>, cmd: string, p: Plugin) {
    exists i, key | 0 <= i < |bindings| && Answers(groups, bindings[i], key, cmd) :: groups[bindings[i]][key] == p
  }

  ghost predicate AnsweredBy(groups: Groups, bindings: seq<string>, cmd: string, name: string) {
    exists i | 0 <= i < |bindings| :: Answers(groups, bindings[i], name, cmd)
  }

  /** Everything that answers the command is returned and nothing else, and the full name is one of those keys. */
  ghost predicate FindsAll(groups: Groups, bindings: seq<string>, cmd: string, out: seq<Plugin>, name: string) {
    && (forall i, key | 0 <= i < |bindings| && Answers(groups, bindings[i], key, cmd) ::
          groups[bindings[i]][key] in out)
    && (forall p | p in out :: Among(groups, bindings, cmd, p))
    && (if out == [] then name == "" else AnsweredBy(groups, bindings, cmd, name))
  }

  lemma SearchFindsEach(groups: Groups, bindings: seq<string>, orders: Orders, cmd: string)
    requires IterationOrders(groups, bindings, orders)
    ensures forall i, key | 0 <= i < |bindings| && Answers(groups, bindings[i], key, cmd) ::
      groups[bindings[i]][key] in Configs(groups, bindings, orders, cmd)
  {
    var found, out := Finds(groups, bindings, orders, cmd), Configs(groups, bindings, orders, cmd);
    FindsMeaning(groups, bindings, orders, cmd);
    forall i, key | 0 <= i < |bindings| && Answers(groups, bindings[i], key, cmd)
      ensures groups[bindings[i]][key] in out
    {
      assert Found(i, key) in found;
      var j :| 0 <= j < |found| && found[j] == Found(i, key);
      assert out[j] == groups[bindings[i]][key];
    }
  }

  lemma SearchFindsAll(groups: Groups, bindings: seq<string>, orders: Orders, cmd: string)
    requires IterationOrders(groups, bindings, orders)
    ensures FindsAll(groups, bindings, cmd, Configs(groups, bindings, orders, cmd),
                     Chosen(groups, bindings, orders, cmd))
  {
    var found, out := Finds(groups, bindings, orders, cmd), Configs(groups, bindings, orders, cmd);
    SearchFindsEach(groups, bindings, orders, cmd);
    FindsMeaning(groups, bindings, orders, cmd);
    forall p | p in out ensures Among(groups, bindings, cmd, p) {
      var j :| 0 <= j < |out| && out[j] == p;
      assert found[j] in found && Answers(groups, bindings[found[j].position], found[j].key, cmd);
    }
    if out != [] {
      var last := found[|found| - 1];
      assert last in found && Answers(groups, bindings[last.position], last.key, cmd);
    }
  }

  /** A plugin enabled under the printed form of its name is found by the name, with or without a version. */
  lemma PrintedIsFound(groups: Groups, group: string, repo: string, name: string, version: string)
    requires repo != "" && '/' !in repo && name != "" && '@' !in name
    requires var key := Printed(repo, name, version);
             group in groups && key in groups[group] && groups[group][key].enabled
    ensures forall cmd :: Answers(groups, group, Printed(repo, name, version), cmd) <==> cmd == name
  {
    DecomposePrinted(repo, name, version);
  }

  method GetEnabledPlugins(groups: Groups, bindings: seq<string>, cmdName: string)
    returns (out: seq<Plugin>, fullPluginName: string)
    ensures exists orders: Orders | IterationOrders(groups, bindings, orders) ::
      && out == Configs(groups, bindings, orders, cmdName)
      && fullPluginName == Chosen(groups, bindings, orders, cmdName)
    ensures FindsAll(groups, bindings, cmdName, out, fullPluginName)
  {
    out, fullPluginName := [], "";
    ghost var orders: Orders := [];
    for i := 0 to |bindings|
      invariant Through(groups, bindings, orders, cmdName, i, out, fullPluginName)
    {
      ghost var before, nameBefore := out, fullPluginName;
      var order := IterationOrder(PluginsOf(groups, bindings[i]).Keys);
      out, fullPluginName := SearchGroup(groups, bindings[i], cmdName, order, out, fullPluginName);
      ThroughNext(groups, bindings, orders, order, cmdName, i, before, nameBefore, out, fullPluginName);
      orders := orders + [order];
    }
    assert IterationOrders(groups, bindings, orders);
    SearchFindsAll(groups, bindings, orders, cmdName);
  }

  /** Whatever the order of the hits, Go may iterate the maps so. */
  lemma OutcomeHasOrders(groups: Groups, bindings: seq<string>, cmd: string, kept: seq<seq<string>>)
    returns (orders: Orders)
    requires Outcome(kept, AllHits(groups, bindings, cmd))
    ensures IterationOrders(groups, bindings, orders) && KeptBy(groups, bindings, orders, cmd) == kept
  {
    orders := seq(|bindings|, i requires 0 <= i < |bindings| =>
      AnyOrder(PluginsOf(groups, bindings[i]).Keys - Hits(groups, bindings[i], cmd)) + kept[i]);
    forall i | 0 <= i < |bindings|
      ensures IsOrder(orders[i], PluginsOf(groups, bindings[i]).Keys)
        && Kept(orders[i], Hits(groups, bindings[i], cmd)) == kept[i]
    {
      assert IsOrder(kept[i], AllHits(groups, bindings, cmd)[i]);
      SomeOrderKeeps(PluginsOf(groups, bindings[i]).Keys, Hits(groups, bindings[i], cmd), kept[i]);
    }
  }

  method CanHandle(groups: Groups, bindings: seq<string>, args: seq<string>) returns (can: bool)
    ensures can <==> |args| > 0 && exists i, key | 0 <= i < |bindings| :: Answers(groups, bindings[i], key, args[0])
  {
    if |args| == 0 {
      return false;
    }
    var plugins, fullPluginName := GetEnabledPlugins(groups, bindings, args[0]);
    return |plugins| > 0;
  }

  // ---- when the choice does not depend on the orders ---------------------------------

  lemma TiedOrdersDiffer(groups: Groups, bindings: seq<string>, cmd: string) returns (a: Orders, b: Orders)
    requires Tied(AllHits(groups, bindings, cmd))
    ensures IterationOrders(groups, bindings, a) && IterationOrders(groups, bindings, b)
    ensures Chosen(groups, bindings, a, cmd) != Chosen(groups, bindings, b, cmd)
  {
    var x, y := TiedCanDiffer(AllHits(groups, bindings, cmd));
    a := OutcomeHasOrders(groups, bindings, cmd, x);
    b := OutcomeHasOrders(groups, bindings, cmd, y);
  }

  lemma UntiedOrdersAgree(groups: Groups, bindings: seq<string>, cmd: string, a: Orders, b: Orders)
    requires !Tied(AllHits(groups, bindings, cmd))
    requires IterationOrders(groups, bindings, a) && IterationOrders(groups, bindings, b)
    ensures Chosen(groups, bindings, a, cmd) == Chosen(groups, bindings, b, cmd)
  {
    OrdersGiveOutcome(groups, bindings, a, cmd);
    OrdersGiveOutcome(groups, bindings, b, cmd);
    UntiedIsSame(AllHits(groups, bindings, cmd), KeptBy(groups, bindings, a, cmd), KeptBy(groups, bindings, b, cmd));
  }

  /**
   A command runs the same plugin in every order of iteration if and only if no binding has two plugins for it while
   no later binding has one.
   */
  lemma ExecutorChoiceIsDeterministicIff(groups: Groups, bindings: seq<string>, cmd: string)
    ensures (forall a, b | IterationOrders(groups, bindings, a) && IterationOrders(groups, bindings, b) ::
               Chosen(groups, bindings, a, cmd) == Chosen(groups, bindings, b, cmd))
      <==> !Tied(AllHits(groups, bindings, cmd))
  {
    if Tied(AllHits(groups, bindings, cmd)) {
      var a, b := TiedOrdersDiffer(groups, bindings, cmd);
    } else {
      forall a, b | IterationOrders(groups, bindings, a) && IterationOrders(groups, bindings, b)
        ensures Chosen(groups, bindings, a, cmd) == Chosen(groups, bindings, b, cmd)
      {
        UntiedOrdersAgree(groups, bindings, cmd, a, b);
      }
    }
  }

  lemma AlikeOrdersAgree(groups: Groups, bindings: seq<string>, cmd: string, a: Orders, b: Orders)
    requires Alike(AllHits(groups, bindings, cmd), PluginFound(groups, bindings))
    requires IterationOrders(groups, bindings, a) && IterationOrders(groups, bindings, b)
    ensures Configs(groups, bindings, a, cmd) == Configs(groups, bindings, b, cmd)
  {
    OrdersGiveOutcome(groups, bindings, a, cmd);
    OrdersGiveOutcome(groups, bindings, b, cmd);
    AlikeSuffices(AllHits(groups, bindings, cmd), KeptBy(groups, bindings, a, cmd), KeptBy(groups, bindings, b, cmd),
                  PluginFound(groups, bindings));
  }

  lemma UnlikeOrdersDiffer(groups: Groups, bindings: seq<string>, cmd: string) returns (a: Orders, b: Orders)
    requires !Alike(AllHits(groups, bindings, cmd), PluginFound(groups, bindings))
    ensures IterationOrders(groups, bindings, a) && IterationOrders(groups, bindings, b)
    ensures Configs(groups, bindings, a, cmd) != Configs(groups, bindings, b, cmd)
  {
    var x, y := UnlikeCanDiffer(AllHits(groups, bindings, cmd), PluginFound(groups, bindings));
    a := OutcomeHasOrders(groups, bindings, cmd, x);
    b := OutcomeHasOrders(groups, bindings, cmd, y);
  }

  /**
   The plugin gets the same configurations in the same order, however maps are iterated, if and only if the hits of
   each binding are configured alike.
   */
  lemma ConfigsAreDeterministicIff(groups: Groups, bindings: seq<string>, cmd: string)
    ensures (forall a, b | IterationOrders(groups, bindings, a) && IterationOrders(groups, bindings, b) ::
               Configs(groups, bindings, a, cmd) == Configs(groups, bindings, b, cmd))
      <==> Alike(AllHits(groups, bindings, cmd), PluginFound(groups, bindings))
  {
    if Alike(AllHits(groups, bindings, cmd), PluginFound(groups, bindings)) {
      forall a, b | IterationOrders(groups, bindings, a) && IterationOrders(groups, bindings, b)
        ensures Configs(groups, bindings, a, cmd) == Configs(groups, bindings, b, cmd)
      {
        AlikeOrdersAgree(groups, bindings, cmd, a, b);
      }
    } else {
      var a, b := UnlikeOrdersDiffer(groups, bindings, cmd);
    }
  }

  // ---- whose rules apply ---------------------------------------------------------------

  /** The permissions are those of the first plugin found, the plugin that runs is the last one found. */
  ghost predicate RunsUnderOwnRules(groups: Groups, bindings: seq<string>, orders: Orders, cmd: string)
    requires |orders| <= |bindings|
  {
    var out := Configs(groups, bindings, orders, cmd);
    out != [] ==> out[0].rbac == out[|out| - 1].rbac
  }

  /** Every hit of the first binding with one has the rules of every hit of the last binding with one. */
  ghost predicate SameRules(groups: Groups, bindings: seq<string>, hits: seq<set<string>>)
    requires |hits| == |bindings|
  {
    var first, last := FirstHit(hits, |hits|), LastHit(hits, |hits|);
    first >= 0 ==> forall k, l | k in hits[first] && l in hits[last] ::
      PluginFound(groups, bindings)(Found(first, k)).rbac == PluginFound(groups, bindings)(Found(last, l)).rbac
  }

  lemma EndsHaveSameRules(groups: Groups, bindings: seq<string>, hits: seq<set<string>>, kept: seq<seq<string>>)
    requires |hits| == |bindings| && SameRules(groups, bindings, hits) && Outcome(kept, hits)
    ensures var out := Valued(Flat(kept, |hits|), PluginFound(groups, bindings));
            out != [] ==> out[0].rbac == out[|out| - 1].rbac
  {
    var found := Flat(kept, |hits|);
    FirstAndLastAreHits(kept, hits);
    if found != [] {
      var first, last := found[0], found[|found| - 1];
      assert first == Found(FirstHit(hits, |hits|), first.key) && last == Found(LastHit(hits, |hits|), last.key);
    }
  }

  lemma SameRulesSuffice(groups: Groups, bindings: seq<string>, orders: Orders, cmd: string)
    requires SameRules(groups, bindings, AllHits(groups, bindings, cmd)) && IterationOrders(groups, bindings, orders)
    ensures RunsUnderOwnRules(groups, bindings, orders, cmd)
  {
    OrdersGiveOutcome(groups, bindings, orders, cmd);
    EndsHaveSameRules(groups, bindings, AllHits(groups, bindings, cmd), KeptBy(groups, bindings, orders, cmd));
  }

  lemma RulesCanDiffer(groups: Groups, bindings: seq<string>, cmd: string) returns (orders: Orders)
    requires !SameRules(groups, bindings, AllHits(groups, bindings, cmd))
    ensures IterationOrders(groups, bindings, orders) && !RunsUnderOwnRules(groups, bindings, orders, cmd)
  {
    var hits := AllHits(groups, bindings, cmd);
    var first, last, k, l := DifferentRules(groups, bindings, hits);
    var kept := FirstAndLast(hits, first, last, k, l);
    orders := OutcomeHasOrders(groups, bindings, cmd, kept);
  }

  lemma DifferentRules(groups: Groups, bindings: seq<string>, hits: seq<set<string>>)
    returns (first: nat, last: nat, k: string, l: string)
    requires |hits| == |bindings| && !SameRules(groups, bindings, hits)
    ensures first == FirstHit(hits, |hits|) && last == LastHit(hits, |hits|) && k in hits[first] && l in hits[last]
    ensures first == last ==> k != l
    ensures PluginFound(groups, bindings)(Found(first, k)).rbac != PluginFound(groups, bindings)(Found(last, l)).rbac
  {
    first, last := FirstHit(hits, |hits|), LastHit(hits, |hits|);
    k, l :| k in hits[first] && l in hits[last]
      && PluginFound(groups, bindings)(Found(first, k)).rbac != PluginFound(groups, bindings)(Found(last, l)).rbac;
  }

  /**
   A command runs with the rules of the plugin it runs, in every order of iteration, if and only if every hit of the
   first binding with one has the rules of every hit of the last.
   */
  lemma RunsUnderOwnRulesIff(groups: Groups, bindings: seq<string>, cmd: string)
    ensures (forall orders | IterationOrders(groups, bindings, orders) ::
               RunsUnderOwnRules(groups, bindings, orders, cmd))
      <==> SameRules(groups, bindings, AllHits(groups, bindings, cmd))
  {
    if SameRules(groups, bindings, AllHits(groups, bindings, cmd)) {
      forall orders | IterationOrders(groups, bindings, orders)
        ensures RunsUnderOwnRules(groups, bindings, orders, cmd) {
        SameRulesSuffice(groups, bindings, orders, cmd);
      }
    } else {
      var orders := RulesCanDiffer(groups, bindings, cmd);
    }
  }

  // ---- what validation buys ------------------------------------------------------------

  ghost predicate BoundFor(groups: Groups, bindings: seq<string>, cmd: string, key: string) {
    exists i | 0 <= i < |bindings| :: key in Hits(groups, bindings[i], cmd)
  }

  /** Two bound keys for one command that differ only in a bare trailing `@`. */
  ghost predicate SpelledTwice(groups: Groups, bindings: seq<string>, cmd: string) {
    exists key :: BoundFor(groups, bindings, cmd, key) && BoundFor(groups, bindings, cmd, key + "@")
  }

  lemma BoundForIsBound(groups: Groups, bindings: seq<string>, cmd: string, key: string)
    requires BoundFor(groups, bindings, cmd, key)
    ensures Bound(groups, bindings, key) && CommandName(key) == cmd
  {
    var i :| 0 <= i < |bindings| && key in Hits(groups, bindings[i], cmd);
    assert bindings[i] in bindings && EnabledIn(groups, bindings[i], key);
  }

  /** The keys accepted bindings have for a command are spellings of one plugin. */
  lemma AcceptedKeysAgree(groups: Groups, bindings: seq<string>, cmd: string, a: string, b: string)
    requires Accepted(groups, bindings) && cmd != ""
    requires BoundFor(groups, bindings, cmd, a) && BoundFor(groups, bindings, cmd, b)
    ensures DecomposePluginKey(a).Parts? && DecomposePluginKey(a) == DecomposePluginKey(b)
    ensures a == b || a == b + "@" || b == a + "@"
  {
    BoundForIsBound(groups, bindings, cmd, a);
    BoundForIsBound(groups, bindings, cmd, b);
    assert Compatible(a, b);
    PrintDecomposed(a);
    PrintDecomposed(b);
  }

  /**
   An accepted configuration binds at most one key per command, exactly when no key is also spelled with a bare `@`.
   */
  lemma OneKeyPerCommandIff(groups: Groups, bindings: seq<string>, cmd: string)
    requires Accepted(groups, bindings) && cmd != ""
    ensures (forall a, b | BoundFor(groups, bindings, cmd, a) && BoundFor(groups, bindings, cmd, b) :: a == b)
      <==> !SpelledTwice(groups, bindings, cmd)
  {
    forall a, b | BoundFor(groups, bindings, cmd, a) && BoundFor(groups, bindings, cmd, b)
      ensures a == b || SpelledTwice(groups, bindings, cmd)
    {
      AcceptedKeysAgree(groups, bindings, cmd, a, b);
    }
    if key :| BoundFor(groups, bindings, cmd, key) && BoundFor(groups, bindings, cmd, key + "@") {
      assert |key + "@"| != |key|;
    }
  }

  lemma SameKeySameRules(groups: Groups, bindings: seq<string>, cmd: string, i: nat, j: nat, key: string)
    requires Accepted(groups, bindings) && i < |bindings| && j < |bindings|
    requires key in Hits(groups, bindings[i], cmd) && key in Hits(groups, bindings[j], cmd)
    ensures PluginFound(groups, bindings)(Found(i, key)).rbac == PluginFound(groups, bindings)(Found(j, key)).rbac
  {
    assert SameRBAC(groups, bindings, key);
    assert EnabledIn(groups, bindings[i], key) && EnabledIn(groups, bindings[j], key);
    assert bindings[i] in bindings && bindings[j] in bindings;
    assert RulesOf(groups, bindings[i], key) == RulesOf(groups, bindings[j], key);
  }

  lemma HitIsBoundFor(groups: Groups, bindings: seq<string>, cmd: string, i: nat, key: string)
    requires i < |bindings| && key in AllHits(groups, bindings, cmd)[i]
    ensures key in Hits(groups, bindings[i], cmd) && BoundFor(groups, bindings, cmd, key)
  {
  }

  lemma OneKeyIsUntied(groups: Groups, bindings: seq<string>, cmd: string)
    requires forall a, b | BoundFor(groups, bindings, cmd, a) && BoundFor(groups, bindings, cmd, b) :: a == b
    ensures var hits := AllHits(groups, bindings, cmd); !Tied(hits) && Alike(hits, PluginFound(groups, bindings))
  {
    var hits := AllHits(groups, bindings, cmd);
    forall i: nat, k, l | i < |hits| && k in hits[i] && l in hits[i] ensures k == l {
      HitIsBoundFor(groups, bindings, cmd, i, k);
      HitIsBoundFor(groups, bindings, cmd, i, l);
    }
  }

  lemma OneKeyHasOneRule(groups: Groups, bindings: seq<string>, cmd: string)
    requires Accepted(groups, bindings)
    requires forall a, b | BoundFor(groups, bindings, cmd, a) && BoundFor(groups, bindings, cmd, b) :: a == b
    ensures SameRules(groups, bindings, AllHits(groups, bindings, cmd))
  {
    var hits := AllHits(groups, bindings, cmd);
    var first, last := FirstHit(hits, |hits|), LastHit(hits, |hits|);
    if first >= 0 {
      forall k, l | k in hits[first] && l in hits[last]
        ensures PluginFound(groups, bindings)(Found(first, k)).rbac
          == PluginFound(groups, bindings)(Found(last, l)).rbac
      {
        HitIsBoundFor(groups, bindings, cmd, first, k);
        HitIsBoundFor(groups, bindings, cmd, last, l);
        assert k == l;
        SameKeySameRules(groups, bindings, cmd, first, last, k);
      }
    }
  }

  /**
   In an accepted configuration a command runs the same plugin, with the same configurations in the same order and
   under its own rules, in every order of iteration, provided no key is spelled twice.
   */
  lemma ExecutorChoiceIsDeterministic(groups: Groups, bindings: seq<string>, cmd: string, a: Orders, b: Orders)
    requires Accepted(groups, bindings) && cmd != "" && !SpelledTwice(groups, bindings, cmd)
    requires IterationOrders(groups, bindings, a) && IterationOrders(groups, bindings, b)
    ensures Chosen(groups, bindings, a, cmd) == Chosen(groups, bindings, b, cmd)
    ensures Configs(groups, bindings, a, cmd) == Configs(groups, bindings, b, cmd)
    ensures RunsUnderOwnRules(groups, bindings, a, cmd)
  {
    OneKeyPerCommandIff(groups, bindings, cmd);
    OneKeyIsUntied(groups, bindings, cmd);
    OneKeyHasOneRule(groups, bindings, cmd);
    UntiedOrdersAgree(groups, bindings, cmd, a, b);
    AlikeOrdersAgree(groups, bindings, cmd, a, b);
    SameRulesSuffice(groups, bindings, a, cmd);
  }

  /** When all groups are well defined, the empty command selects nothing. */
  lemma EmptyCommandSelectsNothing(groups: Groups, bindings: seq<string>, orders: Orders)
    requires forall name | name in groups :: WellDefined(groups[name])
    requires IterationOrders(groups, bindings, orders)
    ensures Configs(groups, bindings, orders, "") == [] && Chosen(groups, bindings, orders, "") == ""
  {
    forall i, k | 0 <= i < |bindings| ensures k !in Hits(groups, bindings[i], "") {
      if k in Hits(groups, bindings[i], "") {
        PrintDecomposed(k);
      }
    }
    assert forall i | 0 <= i < |bindings| :: AllHits(groups, bindings, "")[i] == {};
    OrdersGiveOutcome(groups, bindings, orders, "");
    FirstAndLastAreHits(KeptBy(groups, bindings, orders, ""), AllHits(groups, bindings, ""));
  }

  // ---- the two spellings ---------------------------------------------------------------

  /** A repository and a plugin name that can be printed as a key. */
  predicate Nameable(repo: string, name: string) {
    repo != "" && '/' !in repo && name != "" && '@' !in name
  }

  function Plain(repo: string, name: string): string {
    Printed(repo, name, "")
  }

  function Bare(repo: string, name: string): string {
    Printed(repo, name, "") + "@"
  }

  lemma BothSpellings(repo: string, name: string)
    requires Nameable(repo, name)
    ensures DecomposePluginKey(Plain(repo, name)) == DecomposePluginKey(Bare(repo, name)) == Parts(repo, name, "")
    ensures Plain(repo, name) != Bare(repo, name)
  {
    DecomposePrinted(repo, name, "");
    DecomposeBare(repo, name);
  }

  /** One group with the keys `repo/name` and `repo/name@`. */
  function OneGroup(repo: string, name: string, p: Plugin, q: Plugin): Groups {
    map["tools" := map[Plain(repo, name) := p, Bare(repo, name) := q]]
  }

  /** The key `repo/name` in one group and `repo/name@` in another. */
  function TwoGroups(repo: string, name: string, p: Plugin, q: Plugin): Groups {
    map["admin" := map[Plain(repo, name) := p], "tools" := map[Bare(repo, name) := q]]
  }

  lemma SpellingsAreAccepted(repo: string, name: string, groups: Groups, bindings: seq<string>)
    requires Nameable(repo, name)
    requires forall g | g in bindings ::
      g in groups && forall key | key in groups[g] :: key == Plain(repo, name) || key == Bare(repo, name)
    requires forall key, a, b | a in bindings && b in bindings && key in groups[a] && key in groups[b] :: a == b
    ensures Accepted(groups, bindings)
  {
    BothSpellings(repo, name);
    forall key | Bound(groups, bindings, key) ensures key == Plain(repo, name) || key == Bare(repo, name) {
      var g :| g in bindings && EnabledIn(groups, g, key);
    }
  }

  lemma OneGroupHits(repo: string, name: string, p: Plugin, q: Plugin)
    requires Nameable(repo, name) && p.enabled && q.enabled
    ensures Tied(AllHits(OneGroup(repo, name, p, q), ["tools"], name))
  {
    var groups, bindings := OneGroup(repo, name, p, q), ["tools"];
    var hits := AllHits(groups, bindings, name);
    BothSpellings(repo, name);
    assert hits[0] == Hits(groups, "tools", name);
    assert Plain(repo, name) in hits[0] && Bare(repo, name) in hits[0];
  }

  lemma OneGroupAccepted(repo: string, name: string, p: Plugin, q: Plugin)
    requires Nameable(repo, name)
    ensures Accepted(OneGroup(repo, name, p, q), ["tools"])
  {
    SpellingsAreAccepted(repo, name, OneGroup(repo, name, p, q), ["tools"]);
  }

  /**
   A group with `repo/name` and `repo/name@` is accepted whatever rules the two carry, and the order of map iteration
   decides which of the two the command runs.
   */
  lemma SpelledTwiceIsArbitrary(repo: string, name: string, p: Plugin, q: Plugin) returns (a: Orders, b: Orders)
    requires Nameable(repo, name) && p.enabled && q.enabled
    ensures Accepted(OneGroup(repo, name, p, q), ["tools"])
    ensures IterationOrders(OneGroup(repo, name, p, q), ["tools"], a)
      && IterationOrders(OneGroup(repo, name, p, q), ["tools"], b)
    ensures Chosen(OneGroup(repo, name, p, q), ["tools"], a, name)
      != Chosen(OneGroup(repo, name, p, q), ["tools"], b, name)
  {
    OneGroupAccepted(repo, name, p, q);
    OneGroupHits(repo, name, p, q);
    a, b := TiedOrdersDiffer(OneGroup(repo, name, p, q), ["tools"], name);
  }

  lemma TwoGroupsHits(repo: string, name: string, p: Plugin, q: Plugin)
    requires Nameable(repo, name) && p.enabled && q.enabled
    ensures AllHits(TwoGroups(repo, name, p, q), ["admin", "tools"], name) == [{Plain(repo, name)}, {Bare(repo, name)}]
  {
    BothSpellings(repo, name);
    var groups := TwoGroups(repo, name, p, q);
    assert PluginsOf(groups, "admin") == map[Plain(repo, name) := p]
      && PluginsOf(groups, "tools") == map[Bare(repo, name) := q];
    assert Hits(groups, "admin", name) == {Plain(repo, name)} && Hits(groups, "tools", name) == {Bare(repo, name)};
  }

  lemma TwoGroupsAccepted(repo: string, name: string, p: Plugin, q: Plugin)
    requires Nameable(repo, name) && p.enabled && q.enabled
    ensures Accepted(TwoGroups(repo, name, p, q), ["admin", "tools"])
      && SpelledTwice(TwoGroups(repo, name, p, q), ["admin", "tools"], name)
  {
    var groups, bindings := TwoGroups(repo, name, p, q), ["admin", "tools"];
    BothSpellings(repo, name);
    SpellingsAreAccepted(repo, name, groups, bindings);
    TwoGroupsHits(repo, name, p, q);
    assert AllHits(groups, bindings, name)[0] == Hits(groups, bindings[0], name);
    assert AllHits(groups, bindings, name)[1] == Hits(groups, bindings[1], name);
    assert BoundFor(groups, bindings, name, Plain(repo, name)) && BoundFor(groups, bindings, name, Bare(repo, name));
  }

  lemma OneEach(kept: seq<seq<string>>, k: string, l: string)
    requires Outcome(kept, [{k}, {l}])
    ensures Flat(kept, 2) == [Found(0, k), Found(1, l)]
  {
    assert IsOrder(kept[0], [{k}, {l}][0]) && IsOrder(kept[1], [{k}, {l}][1]);
    OneKeyOrder(kept[0], k);
    OneKeyOrder(kept[1], l);
    assert Flat(kept, 1) == [Found(0, k)];
  }

  lemma OneKeyOrder(order: seq<string>, key: string)
    requires IsOrder(order, {key})
    ensures order == [key]
  {
    OrderLength(order, {key});
    assert order[0] in order;
  }

  /** With the spellings in two bindings the second one always runs, under the rules of the first. */
  lemma SpellingsInTwoBindings(repo: string, name: string, p: Plugin, q: Plugin, orders: Orders)
    requires Nameable(repo, name) && p.enabled && q.enabled
    requires IterationOrders(TwoGroups(repo, name, p, q), ["admin", "tools"], orders)
    ensures Accepted(TwoGroups(repo, name, p, q), ["admin", "tools"])
      && SpelledTwice(TwoGroups(repo, name, p, q), ["admin", "tools"], name)
    ensures Chosen(TwoGroups(repo, name, p, q), ["admin", "tools"], orders, name) == Bare(repo, name)
    ensures Configs(TwoGroups(repo, name, p, q), ["admin", "tools"], orders, name) == [p, q]
  {
    var groups, bindings := TwoGroups(repo, name, p, q), ["admin", "tools"];
    TwoGroupsAccepted(repo, name, p, q);
    TwoGroupsHits(repo, name, p, q);
    OrdersGiveOutcome(groups, bindings, orders, name);
    OneEach(KeptBy(groups, bindings, orders, name), Plain(repo, name), Bare(repo, name));
    var value := PluginFound(groups, bindings);
    assert value(Found(0, Plain(repo, name))) == p && value(Found(1, Bare(repo, name))) == q;
  }
}
