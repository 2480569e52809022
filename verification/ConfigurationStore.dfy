/** The store of Kubernetes source configurations and its index by kubeconfig. */
module ConfigurationStore {
  import opened Options
  import opened KubernetesConfig
  import opened Text

  /** One call that stored a configuration. */
  datatype Call = Call(sourceName: string, cfg: SourceConfig) {
    function Key(): string { KeyForStore(sourceName, cfg.isInteractivitySupported) }
  }

  function KeyForStore(sourceName: string, isInteractivitySupported: bool): string {
    sourceName + "/" + if isInteractivitySupported then "true" else "false"
  }

  lemma KeyForStoreInjective(a: string, x: bool, b: string, y: bool)
    requires KeyForStore(a, x) == KeyForStore(b, y)
    ensures a == b && x == y
  {
    var k := KeyForStore(a, x);
    assert k[|k| - 2] == if x then 'u' else 's';
    assert k[|k| - 2] == if y then 'u' else 's';
    assert a == k[..|k| - (if x then 5 else 6)] && b == k[..|k| - (if y then 5 else 6)];
  }

  /** Of one source, the flavour without interactivity comes first. */
  lemma PlainFlavourFirst(source: string)
    ensures Before(KeyForStore(source, false), KeyForStore(source, true))
    ensures KeyForStore(source, false)[|source|..] == "/false" && KeyForStore(source, true)[|source|..] == "/true"
  {
    var plain, interactive := KeyForStore(source, false), KeyForStore(source, true);
    BeforeMeaning(plain, interactive);
    assert plain[..|source| + 1] == source + "/" == interactive[..|source| + 1];
    assert SmallerAt(plain, interactive, |source| + 1);
  }

  /** Keys are not ordered as the names are: the separator comes after the hyphen. */
  lemma KeyOrderIsNotNameOrder(x: bool, y: bool)
    ensures Before("a", "a-b") && Before(KeyForStore("a-b", x), KeyForStore("a", y))
  {
    var long, short := KeyForStore("a-b", x), KeyForStore("a", y);
    BeforeMeaning("a", "a-b");
    BeforeMeaning(long, short);
    assert long[..1] == "a" == short[..1];
    assert SmallerAt(long, short, 1);
  }

  // ---- what a history of calls means -----------------------------------------

  /** The latest configuration stored under each key. */
  function Latest(history: seq<Call>): map<string, SourceConfig> {
    if history == [] then map[]
    else
      var last := history[|history| - 1];
      Latest(history[..|history| - 1])[last.Key() := last.cfg]
  }

  ghost predicate EverStored(history: seq<Call>, kubeConfig: string, key: string) {
    exists call | call in history :: call.Key() == key && call.cfg.kubeConfig == kubeConfig
  }

  /** The call at `i` is for the key, and none after it is. */
  predicate LastCallAt(history: seq<Call>, key: string, i: nat) {
    i < |history| && history[i].Key() == key && forall j | i < j < |history| :: history[j].Key() != key
  }

  lemma LastCallNext(history: seq<Call>, key: string, i: nat)
    requires history != []
    ensures var n := |history| - 1;
            LastCallAt(history, key, i) <==>
            if history[n].Key() == key then i == n else LastCallAt(history[..n], key, i)
  {
  }

  /** What is stored under a key is the configuration of the last call for it. */
  lemma {:induction false} LatestMeaning(history: seq<Call>, key: string, cfg: SourceConfig)
    ensures key in Latest(history) && Latest(history)[key] == cfg <==>
      exists i: nat :: LastCallAt(history, key, i) && history[i].cfg == cfg
  {
    if history != [] {
      var init, last := history[..|history| - 1], history[|history| - 1];
      forall i: nat { LastCallNext(history, key, i); }
      if last.Key() == key {
        assert LastCallAt(history, key, |init|);
      } else {
        LatestMeaning(init, key, cfg);
      }
    }
  }

  ghost predicate KeepsKubeconfig(history: seq<Call>) {
    forall a, b | a in history && b in history && a.Key() == b.Key() :: a.cfg.kubeConfig == b.cfg.kubeConfig
  }

  lemma {:induction false} LatestIsStored(history: seq<Call>, key: string)
    ensures key in Latest(history) <==> exists call | call in history :: call.Key() == key
    ensures key in Latest(history) ==>
      exists call | call in history :: call.Key() == key && call.cfg == Latest(history)[key]
  {
    if history != [] {
      var init, last := history[..|history| - 1], history[|history| - 1];
      LatestIsStored(init, key);
      assert history == init + [last];
      if key in Latest(init) && key != last.Key() {
        var call :| call in init && call.Key() == key && call.cfg == Latest(init)[key];
        assert call in history;
      }
      assert last in history;
    }
  }

  lemma LatestEmpty(history: seq<Call>)
    ensures Latest(history) == map[] <==> history == []
  {
    if history != [] {
      var last := history[|history| - 1];
      assert last.Key() in Latest(history);
    }
  }

  lemma EverStoredNext(history: seq<Call>, call: Call, kubeConfig: string, key: string)
    ensures EverStored(history + [call], kubeConfig, key) <==>
      EverStored(history, kubeConfig, key) || (kubeConfig == call.cfg.kubeConfig && key == call.Key())
  {
    assert forall c :: c in history + [call] <==> c in history || c == call;
    assert call in history + [call];
  }

  function Group<T>(index: map<string, T>, kubeConfig: string, default: T): T {
    if kubeConfig in index then index[kubeConfig] else default
  }

  ghost predicate Indexed(index: map<string, set<string>>, history: seq<Call>) {
    && (forall kubeConfig, key :: key in Group(index, kubeConfig, {}) <==> EverStored(history, kubeConfig, key))
    && (forall kubeConfig | kubeConfig in index :: index[kubeConfig] != {})
  }

  lemma IndexedNext(index: map<string, set<string>>, history: seq<Call>, call: Call)
    requires Indexed(index, history)
    ensures var kubeConfig := call.cfg.kubeConfig;
            Indexed(index[kubeConfig := Group(index, kubeConfig, {}) + {call.Key()}], history + [call])
  {
    forall kubeConfig, key { EverStoredNext(history, call, kubeConfig, key); }
  }

  /** The group's keys with the configurations stored for them. */
  ghost predicate CopyOf(group: map<string, SourceConfig>, keys: set<string>, store: map<string, SourceConfig>) {
    group.Keys == keys && forall k | k in group :: k in store && group[k] == store[k]
  }

  lemma IndexedIsStored(store: map<string, SourceConfig>, index: map<string, set<string>>, history: seq<Call>,
                        kubeConfig: string)
    requires store == Latest(history) && Indexed(index, history) && kubeConfig in index
    ensures index[kubeConfig] <= store.Keys
  {
    forall key | key in index[kubeConfig] ensures key in store {
      assert key in Group(index, kubeConfig, {});
      LatestIsStored(history, key);
    }
  }

  class Store {
    var store: map<string, SourceConfig>
    var storeByKubeconfig: map<string, set<string>>
    ghost var history: seq<Call>

    ghost predicate Valid()
      reads this
    {
      store == Latest(history) && Indexed(storeByKubeconfig, history)
    }

    constructor ()
      ensures Valid() && history == []
    {
      store, storeByKubeconfig, history := map[], map[], [];
    }

    method Put(sourceName: string, cfg: SourceConfig)
      requires Valid()
      modifies this
      ensures Valid() && history == old(history) + [Call(sourceName, cfg)]
    {
      ghost var call := Call(sourceName, cfg);
      IndexedNext(storeByKubeconfig, history, call);
      var key := KeyForStore(sourceName, cfg.isInteractivitySupported);
      store := store[key := cfg];
      if cfg.kubeConfig !in storeByKubeconfig {
        storeByKubeconfig := storeByKubeconfig[cfg.kubeConfig := {}];
      }
      storeByKubeconfig := storeByKubeconfig[cfg.kubeConfig := storeByKubeconfig[cfg.kubeConfig] + {key}];
      assert (history + [call])[..|history|] == history;
      history := history + [call];
    }

    method Get(sourceKey: string) returns (cfg: Option<SourceConfig>)
      requires Valid()
      ensures cfg == if sourceKey in Latest(history) then Some(Latest(history)[sourceKey]) else None
    {
      cfg := if sourceKey in store then Some(store[sourceKey]) else None;
    }

    /** The system configuration is the one with the alphabetically least key, whatever was stored first. */
    method GetSystemConfig() returns (cfg: Option<SourceConfig>)
      requires Valid()
      ensures cfg.None? <==> history == []
      ensures cfg.Some? ==> exists key | Least(key, Latest(history).Keys) :: cfg.value == Latest(history)[key]
    {
      var sortedKeys := SortKeys(store.Keys);
      LatestEmpty(history);
      if |sortedKeys| == 0 {
        assert store.Keys == {};
        return None;
      }
      var key := sortedKeys[0];
      assert key in sortedKeys;
      assert Least(key, store.Keys) by {
        forall y | y in store.Keys && y != key ensures Before(key, y) {
          var i :| 0 <= i < |sortedKeys| && sortedKeys[i] == y;
        }
      }
      return Some(store[key]);
    }

    method CloneGroup(index: set<string>) returns (group: map<string, SourceConfig>)
      requires index <= store.Keys
      ensures CopyOf(group, index, store)
    {
      group := map[];
      var srcIndex := index;
      while srcIndex != {}
        invariant srcIndex <= index && CopyOf(group, index - srcIndex, store)
      {
        var srcKey :| srcKey in srcIndex;
        group := group[srcKey := store[srcKey]];
        srcIndex := srcIndex - {srcKey};
      }
    }

    method CloneByKubeconfig() returns (out: map<string, map<string, SourceConfig>>)
      requires Valid()
      ensures IsClone(out, history)
    {
      out := map[];
      var kubeConfigs := storeByKubeconfig.Keys;
      while kubeConfigs != {}
        invariant kubeConfigs <= storeByKubeconfig.Keys
        invariant out.Keys == storeByKubeconfig.Keys - kubeConfigs
        invariant forall kc | kc in out :: CopyOf(out[kc], storeByKubeconfig[kc], store)
      {
        var kubeConfig :| kubeConfig in kubeConfigs;
        IndexedIsStored(store, storeByKubeconfig, history, kubeConfig);
        var group := CloneGroup(storeByKubeconfig[kubeConfig]);
        out := out[kubeConfig := group];
        kubeConfigs := kubeConfigs - {kubeConfig};
      }
      CloneOfIndex(out, store, storeByKubeconfig, history);
    }
  }

  /** A copy of the values of an index that is right is right. */
  lemma CloneOfIndex(out: map<string, map<string, SourceConfig>>, store: map<string, SourceConfig>,
                     index: map<string, set<string>>, history: seq<Call>)
    requires store == Latest(history) && out.Keys == index.Keys
    requires Indexed(index, history)
    requires forall kc | kc in out :: CopyOf(out[kc], index[kc], store)
    ensures IsClone(out, history)
  {
    forall kubeConfig, key
      ensures key in Group(out, kubeConfig, map[]) <==> EverStored(history, kubeConfig, key)
    {
      assert key in Group(index, kubeConfig, {}) <==> EverStored(history, kubeConfig, key);
    }
  }

  /** Each group holds exactly the keys ever stored under its kubeconfig, with their latest values. */
  ghost predicate IsClone(out: map<string, map<string, SourceConfig>>, history: seq<Call>) {
    && (forall kubeConfig, key :: key in Group(out, kubeConfig, map[]) <==> EverStored(history, kubeConfig, key))
    && (forall kubeConfig | kubeConfig in out :: out[kubeConfig] != map[])
    && (forall kubeConfig | kubeConfig in out :: forall key | key in out[kubeConfig] ::
          key in Latest(history) && out[kubeConfig][key] == Latest(history)[key])
  }

  /** Every stored configuration is in exactly one group. */
  ghost predicate Partitions(out: map<string, map<string, SourceConfig>>, history: seq<Call>) {
    && (forall key | key in Latest(history) :: exists kc :: key in Group(out, kc, map[]))
    && (forall key, kc1, kc2 | key in Group(out, kc1, map[]) && key in Group(out, kc2, map[]) :: kc1 == kc2)
  }

  /** Every configuration in a group is to be watched with the credentials of that group. */
  ghost predicate OwnCredentials(out: map<string, map<string, SourceConfig>>) {
    forall kc, key | key in Group(out, kc, map[]) :: out[kc][key].kubeConfig == kc
  }

  lemma KeptKubeconfigsPartition(out: map<string, map<string, SourceConfig>>, history: seq<Call>)
    requires IsClone(out, history) && KeepsKubeconfig(history)
    ensures Partitions(out, history) && OwnCredentials(out)
  {
    forall key | key in Latest(history) ensures exists kc :: key in Group(out, kc, map[]) {
      LatestIsStored(history, key);
      var call :| call in history && call.Key() == key;
      assert EverStored(history, call.cfg.kubeConfig, key);
    }
    forall kc, key | key in Group(out, kc, map[])
      ensures out[kc][key].kubeConfig == kc && Latest(history)[key].kubeConfig == kc
    {
      assert EverStored(history, kc, key);
      LatestIsStored(history, key);
    }
  }

  lemma MovedKeyIsDuplicated(out: map<string, map<string, SourceConfig>>, history: seq<Call>, a: Call, b: Call)
    requires IsClone(out, history)
    requires a in history && b in history && a.Key() == b.Key() && a.cfg.kubeConfig != b.cfg.kubeConfig
    ensures !Partitions(out, history) && !OwnCredentials(out)
  {
    var key, kc1, kc2 := a.Key(), a.cfg.kubeConfig, b.cfg.kubeConfig;
    assert EverStored(history, kc1, key) && EverStored(history, kc2, key);
    assert key in Group(out, kc1, map[]) && key in Group(out, kc2, map[]);
    assert out[kc1][key] == Latest(history)[key] == out[kc2][key];
  }

  /**
   The clone partitions the store, and every source is watched with its own credentials, exactly when no key was
   ever stored with two kubeconfigs: a key that moves stays in the group it left.
   */
  lemma ClonePartitionsIffKubeconfigsKept(out: map<string, map<string, SourceConfig>>, history: seq<Call>)
    requires IsClone(out, history)
    ensures Partitions(out, history) <==> KeepsKubeconfig(history)
    ensures OwnCredentials(out) <==> KeepsKubeconfig(history)
  {
    if KeepsKubeconfig(history) {
      KeptKubeconfigsPartition(out, history);
    } else {
      var a, b :| a in history && b in history && a.Key() == b.Key() && a.cfg.kubeConfig != b.cfg.kubeConfig;
      MovedKeyIsDuplicated(out, history, a, b);
    }
  }

  /** Which configuration is the system configuration depends only on what is stored, not on the order of the calls. */
  lemma SystemConfigOrderIndependent(h1: seq<Call>, h2: seq<Call>, k1: string, k2: string)
    requires Latest(h1) == Latest(h2) && Least(k1, Latest(h1).Keys) && Least(k2, Latest(h2).Keys)
    ensures k1 == k2
  {
    BeforeTotal(k1, k2);
  }
}
