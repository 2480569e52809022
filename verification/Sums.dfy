/** Sums of a function over a finite set. */
module Sums {
  ghost function Sum<T(!new)>(s: set<T>, f: T -> int): int
    decreases |s|
  {
    if s == {} then 0 else var x :| x in s; f(x) + Sum(s - {x}, f)
  }

  lemma {:induction false} SumPick<T(!new)>(s: set<T>, f: T -> int, x: T)
    requires x in s
    ensures Sum(s, f) == f(x) + Sum(s - {x}, f)
    decreases |s|
  {
    var y :| y in s && Sum(s, f) == f(y) + Sum(s - {y}, f);
    if y != x {
      SumPick(s - {y}, f, x);
      SumPick(s - {x}, f, y);
      assert s - {y} - {x} == s - {x} - {y};
    }
  }

  lemma {:induction false} SumEqual<T(!new)>(s: set<T>, f: T -> int, g: T -> int)
    requires forall x | x in s :: f(x) == g(x)
    ensures Sum(s, f) == Sum(s, g)
    decreases |s|
  {
    if s != {} {
      var x :| x in s && Sum(s, f) == f(x) + Sum(s - {x}, f);
      SumEqual(s - {x}, f, g);
      SumPick(s, g, x);
    }
  }

  /** Two functions that agree everywhere but at `x` have sums that differ by their difference at `x`. */
  lemma SumChange<T(!new)>(s: set<T>, f: T -> int, g: T -> int, x: T)
    requires x in s && forall y | y in s && y != x :: f(y) == g(y)
    ensures Sum(s, g) - Sum(s, f) == g(x) - f(x)
  {
    SumPick(s, f, x);
    SumPick(s, g, x);
    SumEqual(s - {x}, f, g);
  }

  lemma TimesSuccessor(a: int, n: nat)
    ensures a * (n + 1) == a * n + a
  {
  }

  lemma {:induction false} SumAtMost<T(!new)>(s: set<T>, f: T -> int, high: int)
    requires forall x | x in s :: 0 <= f(x) <= high
    ensures 0 <= Sum(s, f) <= high * |s|
    decreases |s|
  {
    if s != {} {
      var x :| x in s && Sum(s, f) == f(x) + Sum(s - {x}, f);
      var rest := s - {x};
      assert |s| == |rest| + 1;
      SumAtMost(rest, f, high);
      TimesSuccessor(high, |rest|);
    }
  }

  lemma {:induction false} SumNatural<T(!new)>(s: set<T>, f: T -> int)
    requires forall x | x in s :: 0 <= f(x)
    ensures 0 <= Sum(s, f)
    decreases |s|
  {
    if s != {} {
      var x :| x in s && Sum(s, f) == f(x) + Sum(s - {x}, f);
      SumNatural(s - {x}, f);
    }
  }
}
