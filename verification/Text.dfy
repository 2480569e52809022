/** String operations: cutting at a separator, splitting, and the alphabetical order of map keys. */
module Text {
  /** The text before and after the first separator. */
  function Cut(s: string, sep: char): (r: (string, string, bool))
    ensures |r.1| <= |s| && (r.2 ==> |r.1| < |s|)
  {
    if s == "" then ("", "", false)
    else if s[0] == sep then ("", s[1..], true)
    else
      var (before, after, found) := Cut(s[1..], sep);
      ([s[0]] + before, after, found)
  }

  /** The text before has no separator, and both parts make up the text. */
  lemma {:induction false} CutMeaning(s: string, sep: char)
    ensures var (before, after, found) := Cut(s, sep);
            && (found <==> sep in s) && sep !in before
            && (s == if found then before + [sep] + after else before) && (!found ==> after == "")
  {
    if s != "" && s[0] != sep {
      CutMeaning(s[1..], sep);
      assert s == [s[0]] + s[1..];
    }
  }

  lemma {:induction false} CutAt(before: string, after: string, sep: char)
    requires sep !in before
    ensures Cut(before + [sep] + after, sep) == (before, after, true)
  {
    var s := before + [sep] + after;
    if before == "" {
      assert s[1..] == after;
    } else {
      assert s[1..] == before[1..] + [sep] + after && s[0] == before[0] && before[0] in before;
      assert [before[0]] + before[1..] == before;
      CutAt(before[1..], after, sep);
    }
  }

  lemma {:induction false} CutAbsent(s: string, sep: char)
    requires sep !in s
    ensures Cut(s, sep) == (s, "", false)
  {
    CutMeaning(s, sep);
  }

  /** All parts of a text between separators. */
  function Split(s: string, sep: char): (parts: seq<string>)
    ensures |parts| > 0
    ensures forall p | p in parts :: sep !in p
    decreases |s|
  {
    CutMeaning(s, sep);
    var (before, after, found) := Cut(s, sep);
    if found then [before] + Split(after, sep) else [before]
  }

  /** There is one part more than there are separators. */
  lemma {:induction false} SplitLength(s: string, sep: char)
    ensures |Split(s, sep)| == multiset(s)[sep] + 1
    decreases |s|
  {
    CutMeaning(s, sep);
    var (before, after, found) := Cut(s, sep);
    if found {
      SplitLength(after, sep);
      assert multiset(s) == multiset(before) + multiset([sep]) + multiset(after);
    }
  }

  function Join(parts: seq<string>, sep: char): string
    requires |parts| > 0
  {
    if |parts| == 1 then parts[0] else parts[0] + [sep] + Join(parts[1..], sep)
  }

  lemma {:induction false} SplitJoin(parts: seq<string>, sep: char)
    requires |parts| > 0 && forall p | p in parts :: sep !in p
    ensures Split(Join(parts, sep), sep) == parts
  {
    if |parts| == 1 {
      CutAbsent(parts[0], sep);
    } else {
      SplitJoin(parts[1..], sep);
      CutAt(parts[0], Join(parts[1..], sep), sep);
    }
  }

  // ---- alphabetical order ----------------------------------------------------

  predicate Before(a: string, b: string) {
    b != "" && (a == "" || a[0] < b[0] || (a[0] == b[0] && Before(a[1..], b[1..])))
  }

  predicate SmallerAt(a: string, b: string, i: nat) {
    i < |a| && i < |b| && a[..i] == b[..i] && a[i] < b[i]
  }

  lemma DifferingHeads(a: string, b: string, i: nat)
    requires i <= |a| && i <= |b| && a[..i] == b[..i]
    ensures i == 0 || a[0] == b[0]
  {
    assert i == 0 || a[..i][0] == b[..i][0];
  }

  /** The order of dictionaries: a proper prefix comes first, otherwise the first difference decides. */
  lemma {:induction false} BeforeMeaning(a: string, b: string)
    ensures Before(a, b) <==> a < b || exists i: nat :: SmallerAt(a, b, i)
  {
    if a != "" && b != "" && a[0] == b[0] {
      BeforeMeaning(a[1..], b[1..]);
      assert a == [a[0]] + a[1..] && b == [b[0]] + b[1..];
      assert a < b <==> a[1..] < b[1..];
      if i: nat :| SmallerAt(a, b, i) {
        assert a[1..][..i - 1] == a[..i][1..] && b[1..][..i - 1] == b[..i][1..];
        assert SmallerAt(a[1..], b[1..], i - 1);
      }
      if i: nat :| SmallerAt(a[1..], b[1..], i) {
        assert a[..i + 1] == [a[0]] + a[1..][..i] && b[..i + 1] == [b[0]] + b[1..][..i];
        assert SmallerAt(a, b, i + 1);
      }
    } else if a != "" && b != "" {
      assert a[0] < b[0] ==> SmallerAt(a, b, 0);
      forall i: nat | SmallerAt(a, b, i) ensures i == 0 {
        DifferingHeads(a, b, i);
      }
    }
  }

  lemma {:induction false} BeforeTotal(a: string, b: string)
    ensures a != b ==> Before(a, b) || Before(b, a)
    ensures !(Before(a, b) && Before(b, a))
  {
    if a != "" && b != "" && a[0] == b[0] {
      BeforeTotal(a[1..], b[1..]);
      assert a == [a[0]] + a[1..] && b == [b[0]] + b[1..];
    }
  }

  lemma {:induction false} BeforeTransitive(a: string, b: string, c: string)
    requires Before(a, b) && Before(b, c)
    ensures Before(a, c)
  {
    if a != "" && a[0] == b[0] && b[0] == c[0] {
      BeforeTransitive(a[1..], b[1..], c[1..]);
    }
  }

  predicate Least(x: string, keys: set<string>) {
    x in keys && forall y | y in keys && y != x :: Before(x, y)
  }

  method FindLeast(keys: set<string>) returns (least: string)
    requires keys != {}
    ensures Least(least, keys)
  {
    least :| least in keys;
    var rest := keys - {least};
    while rest != {}
      invariant rest <= keys && least in keys - rest
      invariant Least(least, keys - rest)
    {
      var x :| x in rest;
      rest := rest - {x};
      BeforeTotal(least, x);
      if Before(x, least) {
        forall y | y in keys - rest && y != x ensures Before(x, y) {
          if y != least {
            BeforeTransitive(x, least, y);
          }
        }
        least := x;
      }
    }
    assert keys - rest == keys;
  }

  predicate SortedKeys(sorted: seq<string>) {
    forall i, j | 0 <= i < j < |sorted| :: Before(sorted[i], sorted[j])
  }

  /** The keys of a map in alphabetical order. */
  method SortKeys(keys: set<string>) returns (sorted: seq<string>)
    ensures SortedKeys(sorted)
    ensures forall x :: x in sorted <==> x in keys
  {
    sorted := [];
    var rest := keys;
    while rest != {}
      invariant rest <= keys
      invariant SortedKeys(sorted)
      invariant forall x :: x in sorted <==> x in keys - rest
      invariant forall x, y | x in sorted && y in rest :: Before(x, y)
    {
      var least := FindLeast(rest);
      sorted, rest := sorted + [least], rest - {least};
    }
  }
}
