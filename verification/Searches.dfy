/**
 A search through several maps, one after the other: what it finds depends on the order in which each map is iterated.
 `hits` are the keys to be found in each map, an outcome has them in some order.
 */
module Searches {
  import opened MapOrders

  /** A key together with the position of the map it was found in. */
  datatype Found = Found(position: nat, key: string)

  ghost predicate Outcome(kept: seq<seq<string>>, hits: seq<set<string>>) {
    |kept| == |hits| && forall i | 0 <= i < |hits| :: IsOrder(kept[i], hits[i])
  }

  function FoundAt(i: nat, keys: seq<string>): seq<Found> {
    seq(|keys|, j requires 0 <= j < |keys| => Found(i, keys[j]))
  }

  /** Everything found in the first `n` maps. */
  function Flat(kept: seq<seq<string>>, n: nat): seq<Found>
    requires n <= |kept|
  {
    if n == 0 then [] else Flat(kept, n - 1) + FoundAt(n - 1, kept[n - 1])
  }

  /** The key found last, empty when nothing was found. */
  function LastKey(found: seq<Found>): string {
    if found == [] then "" else found[|found| - 1].key
  }

  ghost function SomeOutcome(hits: seq<set<string>>): (kept: seq<seq<string>>)
    ensures Outcome(kept, hits)
  {
    seq(|hits|, i requires 0 <= i < |hits| => AnyOrder(hits[i]))
  }

  lemma EmptyOrder(kept: seq<string>, hits: set<string>)
    requires IsOrder(kept, hits)
    ensures kept == [] <==> hits == {}
  {
    if kept != [] {
      assert kept[0] in kept;
    }
    if hits != {} {
      var k :| k in hits;
      assert k in kept;
    }
  }

  /** The last of the first `n` maps with a hit, -1 if there is none. */
  function LastHit(hits: seq<set<string>>, n: nat): (i: int)
    requires n <= |hits|
    ensures -1 <= i < n
    ensures i >= 0 ==> hits[i] != {}
    ensures forall j | i < j < n :: hits[j] == {}
  {
    if n == 0 then -1 else if hits[n - 1] != {} then n - 1 else LastHit(hits, n - 1)
  }

  /** The first of the first `n` maps with a hit, -1 if there is none. */
  function FirstHit(hits: seq<set<string>>, n: nat): (i: int)
    requires n <= |hits|
    ensures -1 <= i < n
    ensures i >= 0 ==> hits[i] != {}
    ensures forall j | 0 <= j < n && (j < i || i == -1) :: hits[j] == {}
  {
    if n == 0 then -1
    else
      var i := FirstHit(hits, n - 1);
      if i >= 0 then i else if hits[n - 1] != {} then n - 1 else -1
  }

  lemma {:induction false} LastFound(kept: seq<seq<string>>, hits: seq<set<string>>, n: nat)
    requires Outcome(kept, hits) && n <= |hits|
    ensures var i, found := LastHit(hits, n), Flat(kept, n);
            if i < 0 then found == []
            else kept[i] != [] && found != [] && found[|found| - 1] == Found(i, kept[i][|kept[i]| - 1])
  {
    if n > 0 {
      EmptyOrder(kept[n - 1], hits[n - 1]);
      LastFound(kept, hits, n - 1);
    }
  }

  lemma {:induction false} FirstFound(kept: seq<seq<string>>, hits: seq<set<string>>, n: nat)
    requires Outcome(kept, hits) && n <= |hits|
    ensures var i, found := FirstHit(hits, n), Flat(kept, n);
            if i < 0 then found == [] else kept[i] != [] && found != [] && found[0] == Found(i, kept[i][0])
  {
    if n > 0 {
      EmptyOrder(kept[n - 1], hits[n - 1]);
      FirstFound(kept, hits, n - 1);
    }
  }

  lemma {:induction false} FlatGrows(kept: seq<seq<string>>, m: nat, n: nat)
    requires m <= n <= |kept|
    ensures Flat(kept, m) <= Flat(kept, n)
  {
    if m < n {
      FlatGrows(kept, m, n - 1);
    }
  }

  lemma {:induction false} SameNumber(a: seq<seq<string>>, b: seq<seq<string>>, hits: seq<set<string>>, n: nat)
    requires Outcome(a, hits) && Outcome(b, hits) && n <= |hits|
    ensures |Flat(a, n)| == |Flat(b, n)|
  {
    if n > 0 {
      SameNumber(a, b, hits, n - 1);
      OrderLength(a[n - 1], hits[n - 1]);
      OrderLength(b[n - 1], hits[n - 1]);
    }
  }

  lemma {:induction false} FoundIsHit(kept: seq<seq<string>>, hits: seq<set<string>>, n: nat, j: nat)
    requires Outcome(kept, hits) && n <= |hits| && j < |Flat(kept, n)|
    ensures var f := Flat(kept, n)[j]; f.position < n && f.key in hits[f.position]
  {
    var before := Flat(kept, n - 1);
    if j < |before| {
      FoundIsHit(kept, hits, n - 1, j);
    } else {
      assert kept[n - 1][j - |before|] in kept[n - 1];
    }
  }

  lemma {:induction false} HitIsFound(kept: seq<seq<string>>, hits: seq<set<string>>, n: nat, i: nat, key: string)
    requires Outcome(kept, hits) && i < n <= |hits| && key in hits[i]
    ensures Found(i, key) in Flat(kept, n)
    decreases n
  {
    if i < n - 1 {
      HitIsFound(kept, hits, n - 1, i, key);
    } else {
      assert key in kept[i];
      var j :| 0 <= j < |kept[i]| && kept[i][j] == key;
      assert FoundAt(i, kept[i])[j] == Found(i, key);
    }
  }

  /** Maps are searched in their order, and nothing is found twice. */
  lemma {:induction false} FoundInOrder(kept: seq<seq<string>>, hits: seq<set<string>>, n: nat, j: nat, k: nat)
    requires Outcome(kept, hits) && n <= |hits| && j < k < |Flat(kept, n)|
    ensures Flat(kept, n)[j].position <= Flat(kept, n)[k].position && Flat(kept, n)[j] != Flat(kept, n)[k]
  {
    var before := Flat(kept, n - 1);
    if k < |before| {
      FoundInOrder(kept, hits, n - 1, j, k);
    } else if j < |before| {
      FoundIsHit(kept, hits, n - 1, j);
    }
  }

  /** The values of all keys found, in order. */
  function Valued<T>(found: seq<Found>, value: Found -> T): seq<T> {
    seq(|found|, j requires 0 <= j < |found| => value(found[j]))
  }

  lemma {:induction false} MoreMaps(kept: seq<seq<string>>, more: seq<string>, n: nat)
    requires n <= |kept|
    ensures Flat(kept + [more], n) == Flat(kept, n)
  {
    if n > 0 {
      MoreMaps(kept, more, n - 1);
    }
  }

  lemma FlatNext(kept: seq<seq<string>>, keys: seq<string>)
    ensures Flat(kept + [keys], |kept| + 1) == Flat(kept, |kept|) + FoundAt(|kept|, keys)
  {
    MoreMaps(kept, keys, |kept|);
    assert (kept + [keys])[|kept|] == keys;
  }

  lemma ValuedConcat<T>(found: seq<Found>, more: seq<Found>, value: Found -> T)
    ensures Valued(found + more, value) == Valued(found, value) + Valued(more, value)
  {
  }

  lemma LastKeyConcat(found: seq<Found>, i: nat, keys: seq<string>)
    ensures LastKey(found + FoundAt(i, keys)) == if keys == [] then LastKey(found) else keys[|keys| - 1]
  {
    var more := FoundAt(i, keys);
    if keys != [] {
      assert more[|more| - 1] == Found(i, keys[|keys| - 1]);
    } else {
      assert found + more == found;
    }
  }

  /** What searching one more map adds. */
  lemma NextMap<T>(kept: seq<seq<string>>, keys: seq<string>, value: Found -> T)
    ensures Valued(Flat(kept + [keys], |kept| + 1), value)
      == Valued(Flat(kept, |kept|), value) + Valued(FoundAt(|kept|, keys), value)
    ensures LastKey(Flat(kept + [keys], |kept| + 1)) == if keys == [] then LastKey(Flat(kept, |kept|))
      else keys[|keys| - 1]
  {
    FlatNext(kept, keys);
    ValuedConcat(Flat(kept, |kept|), FoundAt(|kept|, keys), value);
    LastKeyConcat(Flat(kept, |kept|), |kept|, keys);
  }

  // ---- the last key ------------------------------------------------------------------

  /** Some map has two hits and no later map has any. */
  ghost predicate Tied(hits: seq<set<string>>) {
    exists i, k, l | 0 <= i < |hits| && k in hits[i] && l in hits[i] ::
      k != l && forall j | i < j < |hits| :: hits[j] == {}
  }

  lemma CanBeLast(hits: seq<set<string>>, k: string) returns (kept: seq<seq<string>>)
    requires LastHit(hits, |hits|) >= 0 && k in hits[LastHit(hits, |hits|)]
    ensures Outcome(kept, hits) && LastKey(Flat(kept, |hits|)) == k
  {
    var i := LastHit(hits, |hits|);
    var order := OrderTo(hits[i], k);
    kept := SomeOutcome(hits)[i := order];
    LastFound(kept, hits, |hits|);
  }

  lemma LastKeyIsLastHit(kept: seq<seq<string>>, hits: seq<set<string>>)
    requires Outcome(kept, hits)
    ensures var i := LastHit(hits, |hits|);
            if i < 0 then LastKey(Flat(kept, |hits|)) == "" else LastKey(Flat(kept, |hits|)) in hits[i]
  {
    LastFound(kept, hits, |hits|);
    var i := LastHit(hits, |hits|);
    if i >= 0 {
      assert kept[i][|kept[i]| - 1] in kept[i];
    }
  }

  lemma TiedCanDiffer(hits: seq<set<string>>) returns (a: seq<seq<string>>, b: seq<seq<string>>)
    requires Tied(hits)
    ensures Outcome(a, hits) && Outcome(b, hits) && LastKey(Flat(a, |hits|)) != LastKey(Flat(b, |hits|))
  {
    var i, k, l :| 0 <= i < |hits| && k in hits[i] && l in hits[i] && k != l && forall j | i < j < |hits| ::
      hits[j] == {};
    assert LastHit(hits, |hits|) == i;
    a := CanBeLast(hits, k);
    b := CanBeLast(hits, l);
  }

  lemma UntiedIsSame(hits: seq<set<string>>, a: seq<seq<string>>, b: seq<seq<string>>)
    requires !Tied(hits) && Outcome(a, hits) && Outcome(b, hits)
    ensures LastKey(Flat(a, |hits|)) == LastKey(Flat(b, |hits|))
  {
    LastKeyIsLastHit(a, hits);
    LastKeyIsLastHit(b, hits);
  }

  // ---- the first and the last together -------------------------------------------------

  /**
   Any hit of the first map with one and any hit of the last can be found first and last, if they are different or
   the only one.
   */
  lemma FirstAndLast(hits: seq<set<string>>, first: nat, last: nat, k: string, l: string)
    returns (kept: seq<seq<string>>)
    requires first == FirstHit(hits, |hits|) && last == LastHit(hits, |hits|)
    requires k in hits[first] && l in hits[last] && (first == last ==> k != l)
    ensures Outcome(kept, hits)
    ensures var found := Flat(kept, |hits|);
            && found != []
            && found[0] == Found(first, k)
            && found[|found| - 1] == Found(last, l)
  {
    kept := SomeOutcome(hits);
    if first == last {
      var order := OrderBetween(hits[first], k, l);
      kept := kept[first := order];
    } else {
      var from := OrderFrom(hits[first], k);
      var to := OrderTo(hits[last], l);
      kept := kept[first := from][last := to];
    }
    FirstFound(kept, hits, |hits|);
    LastFound(kept, hits, |hits|);
  }

  lemma FirstAndLastAreHits(kept: seq<seq<string>>, hits: seq<set<string>>)
    requires Outcome(kept, hits)
    ensures var found, first, last := Flat(kept, |hits|), FirstHit(hits, |hits|), LastHit(hits, |hits|);
            if first < 0 then found == []
            else
              && last >= 0 && found != []
              && found[0].position == first && found[0].key in hits[first]
              && found[|found| - 1].position == last && found[|found| - 1].key in hits[last]
  {
    FirstFound(kept, hits, |hits|);
    LastFound(kept, hits, |hits|);
    var found := Flat(kept, |hits|);
    if found != [] {
      FoundIsHit(kept, hits, |hits|, 0);
      FoundIsHit(kept, hits, |hits|, |found| - 1);
    }
  }

  // ---- everything found ----------------------------------------------------------------

  /** In each map all hits have the same value. */
  ghost predicate Alike<T(!new)>(hits: seq<set<string>>, value: Found -> T) {
    forall i, k, l | 0 <= i < |hits| && k in hits[i] && l in hits[i] :: value(Found(i, k)) == value(Found(i, l))
  }

  lemma {:induction false} AlikeIsSame<T(!new)>(hits: seq<set<string>>, a: seq<seq<string>>, b: seq<seq<string>>,
                                         value: Found -> T, n: nat, j: nat)
    requires Alike(hits, value) && Outcome(a, hits) && Outcome(b, hits) && n <= |hits|
    requires |Flat(a, n)| == |Flat(b, n)| && j < |Flat(a, n)|
    ensures value(Flat(a, n)[j]) == value(Flat(b, n)[j])
  {
    SameNumber(a, b, hits, n - 1);
    var before := |Flat(a, n - 1)|;
    if j < before {
      AlikeIsSame(hits, a, b, value, n - 1, j);
    } else {
      var k, l := a[n - 1][j - before], b[n - 1][j - before];
      assert k in a[n - 1] && l in b[n - 1];
    }
  }

  lemma FoundFirstInMap(hits: seq<set<string>>, i: nat, k: string) returns (kept: seq<seq<string>>)
    requires i < |hits| && k in hits[i]
    ensures Outcome(kept, hits)
    ensures |Flat(kept, i)| < |Flat(kept, |hits|)| && Flat(kept, |hits|)[|Flat(kept, i)|] == Found(i, k)
  {
    var order := OrderFrom(hits[i], k);
    kept := SomeOutcome(hits)[i := order];
    FlatGrows(kept, i + 1, |hits|);
    assert Flat(kept, i + 1)[|Flat(kept, i)|] == Found(i, k);
  }

  lemma UnlikeCanDiffer<T(!new)>(hits: seq<set<string>>, value: Found -> T)
    returns (a: seq<seq<string>>, b: seq<seq<string>>)
    requires !Alike(hits, value)
    ensures Outcome(a, hits) && Outcome(b, hits) && Valued(Flat(a, |hits|), value) != Valued(Flat(b, |hits|), value)
  {
    var i, k, l :| 0 <= i < |hits| && k in hits[i] && l in hits[i] && value(Found(i, k)) != value(Found(i, l));
    a := FoundFirstInMap(hits, i, k);
    b := FoundFirstInMap(hits, i, l);
    SameNumber(a, b, hits, i);
    var at := |Flat(a, i)|;
    assert Valued(Flat(a, |hits|), value)[at] == value(Found(i, k));
    if |Flat(a, |hits|)| == |Flat(b, |hits|)| {
      assert Valued(Flat(b, |hits|), value)[at] == value(Found(i, l));
    }
  }

  lemma AlikeSuffices<T(!new)>(hits: seq<set<string>>, a: seq<seq<string>>, b: seq<seq<string>>, value: Found -> T)
    requires Alike(hits, value) && Outcome(a, hits) && Outcome(b, hits)
    ensures Valued(Flat(a, |hits|), value) == Valued(Flat(b, |hits|), value)
  {
    SameNumber(a, b, hits, |hits|);
    forall j | 0 <= j < |Flat(a, |hits|)| ensures value(Flat(a, |hits|)[j]) == value(Flat(b, |hits|)[j]) {
      AlikeIsSame(hits, a, b, value, |hits|, j);
    }
  }
}
