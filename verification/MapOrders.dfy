/**
 The order in which Go iterates a map: any order of its keys, chosen anew for every loop.
 */
module MapOrders {
  /** Every key once. */
  ghost predicate IsOrder(order: seq<string>, keys: set<string>) {
    && (forall k :: k in order <==> k in keys)
    && forall i, j | 0 <= i < j < |order| :: order[i] != order[j]
  }

  /** Stands for the choice of the Go runtime. */
  method IterationOrder(keys: set<string>) returns (order: seq<string>)
    ensures IsOrder(order, keys)
  {
    order := [];
    var rest := keys;
    ghost var done: set<string> := {};
    while rest != {}
      invariant done !! rest && done + rest == keys
      invariant IsOrder(order, done)
    {
      var k :| k in rest;
      OrderNext(order, done, k);
      order, rest, done := order + [k], rest - {k}, done + {k};
    }
    assert done == keys;
  }

  lemma OrderNext(order: seq<string>, keys: set<string>, k: string)
    requires IsOrder(order, keys) && k !in keys
    ensures IsOrder(order + [k], keys + {k})
  {
    var next := order + [k];
    assert forall x :: x in next <==> x in order || x == k;
    forall i, j | 0 <= i < j < |next| ensures next[i] != next[j] {
      assert next[i] == order[i] && order[i] in order;
    }
  }

  lemma {:induction false} OrderConcat(a: seq<string>, b: seq<string>, x: set<string>, y: set<string>)
    requires IsOrder(a, x) && IsOrder(b, y) && x !! y
    ensures IsOrder(a + b, x + y)
  {
    var c := a + b;
    assert forall k :: k in c <==> k in a || k in b;
    forall i, j | 0 <= i < j < |c| ensures c[i] != c[j] {
      if i < |a| <= j {
        assert a[i] in a && b[j - |a|] in b;
      }
    }
  }

  ghost function AnyOrder(keys: set<string>): (order: seq<string>)
    ensures IsOrder(order, keys)
    decreases |keys|
  {
    if keys == {} then []
    else
      var k :| k in keys;
      OrderNext(AnyOrder(keys - {k}), keys - {k}, k);
      assert keys - {k} + {k} == keys;
      AnyOrder(keys - {k}) + [k]
  }

  lemma {:induction false} OrderLength(order: seq<string>, keys: set<string>)
    requires IsOrder(order, keys)
    ensures |order| == |keys|
  {
    if order != [] {
      var init, last := order[..|order| - 1], order[|order| - 1];
      assert last in order && forall k :: k in order <==> k in init || k == last;
      forall k ensures k in init <==> k in keys - {last} {
        if k in init {
          var i :| 0 <= i < |init| && init[i] == k;
          assert order[i] == k;
        }
      }
      OrderLength(init, keys - {last});
    } else {
      assert keys == {};
    }
  }

  // ---- the keys a loop keeps -------------------------------------------------------

  /** The keys of an order that a loop does not skip. */
  function Kept(order: seq<string>, keep: set<string>): (kept: seq<string>)
    ensures forall k | k in kept :: k in keep
  {
    if order == [] then []
    else
      var last := order[|order| - 1];
      Kept(order[..|order| - 1], keep) + if last in keep then [last] else []
  }

  lemma {:induction false} KeptConcat(a: seq<string>, b: seq<string>, keep: set<string>)
    ensures Kept(a + b, keep) == Kept(a, keep) + Kept(b, keep)
  {
    if b == [] {
      assert a + b == a;
    } else {
      assert (a + b)[..|a + b| - 1] == a + b[..|b| - 1];
      KeptConcat(a, b[..|b| - 1], keep);
    }
  }

  lemma {:induction false} KeptAll(order: seq<string>, keep: set<string>)
    requires forall k | k in order :: k in keep
    ensures Kept(order, keep) == order
  {
    if order != [] {
      var init := order[..|order| - 1];
      assert forall k | k in init :: k in order;
      assert order[|order| - 1] in order;
      KeptAll(init, keep);
    }
  }

  lemma {:induction false} KeptNone(order: seq<string>, keep: set<string>)
    requires forall k | k in order :: k !in keep
    ensures Kept(order, keep) == []
  {
    if order != [] {
      var init := order[..|order| - 1];
      assert forall k | k in init :: k in order;
      assert order[|order| - 1] in order;
      KeptNone(init, keep);
    }
  }

  /** What a loop keeps of an order of all keys is an order of the keys kept. */
  lemma {:induction false} KeptIsOrder(order: seq<string>, keys: set<string>, keep: set<string>)
    requires IsOrder(order, keys) && keep <= keys
    ensures IsOrder(Kept(order, keep), keep)
    decreases |order|
  {
    if order == [] {
      assert keep == {};
    } else {
      var init, last := order[..|order| - 1], order[|order| - 1];
      ShorterOrder(order, keys);
      KeptIsOrder(init, keys - {last}, keep - {last});
      KeptSame(init, keep, keep - {last}, last);
      if last in keep {
        OrderNext(Kept(init, keep), keep - {last}, last);
        assert keep - {last} + {last} == keep;
      } else {
        assert keep - {last} == keep;
      }
    }
  }

  lemma ShorterOrder(order: seq<string>, keys: set<string>)
    requires IsOrder(order, keys) && order != []
    ensures IsOrder(order[..|order| - 1], keys - {order[|order| - 1]})
  {
    var init, last := order[..|order| - 1], order[|order| - 1];
    assert last in order && forall k :: k in order <==> k in init || k == last;
    forall k ensures k in init <==> k in keys - {last} {
      if k in init {
        var i :| 0 <= i < |init| && init[i] == k;
        assert order[i] == k;
      }
    }
  }

  lemma {:induction false} KeptSame(order: seq<string>, keep: set<string>, fewer: set<string>, x: string)
    requires x !in order && fewer == keep - {x}
    ensures Kept(order, keep) == Kept(order, fewer)
  {
    if order != [] {
      var init := order[..|order| - 1];
      assert forall k | k in init :: k in order;
      assert order[|order| - 1] in order;
      KeptSame(init, keep, fewer, x);
    }
  }

  /** Every order of the keys kept comes from some order of all keys. */
  lemma SomeOrderKeeps(keys: set<string>, keep: set<string>, kept: seq<string>)
    requires keep <= keys && IsOrder(kept, keep)
    ensures IsOrder(AnyOrder(keys - keep) + kept, keys) && Kept(AnyOrder(keys - keep) + kept, keep) == kept
  {
    var rest := AnyOrder(keys - keep);
    OrderConcat(rest, kept, keys - keep, keep);
    assert keys - keep + keep == keys;
    KeptConcat(rest, kept, keep);
    KeptNone(rest, keep);
    KeptAll(kept, keep);
  }

  /** There is an order with a chosen first and a chosen last key. */
  lemma OrderBetween(keys: set<string>, first: string, last: string) returns (order: seq<string>)
    requires first in keys && last in keys && (first == last ==> keys == {first})
    ensures IsOrder(order, keys) && order != [] && order[0] == first && order[|order| - 1] == last
  {
    if first == last {
      order := [first];
    } else {
      var middle := AnyOrder(keys - {first, last});
      OrderConcat([first], middle, {first}, keys - {first, last});
      OrderNext([first] + middle, {first} + (keys - {first, last}), last);
      order := [first] + middle + [last];
      assert {first} + (keys - {first, last}) + {last} == keys;
    }
  }

  lemma OrderFrom(keys: set<string>, first: string) returns (order: seq<string>)
    requires first in keys
    ensures IsOrder(order, keys) && order != [] && order[0] == first
  {
    OrderConcat([first], AnyOrder(keys - {first}), {first}, keys - {first});
    order := [first] + AnyOrder(keys - {first});
    assert {first} + (keys - {first}) == keys;
  }

  lemma OrderTo(keys: set<string>, last: string) returns (order: seq<string>)
    requires last in keys
    ensures IsOrder(order, keys) && order != [] && order[|order| - 1] == last
  {
    OrderNext(AnyOrder(keys - {last}), keys - {last}, last);
    order := AnyOrder(keys - {last}) + [last];
    assert keys - {last} + {last} == keys;
  }
}
