/** Optional and fallible values, and the code-point order Python uses to sort strings. */
module Basics {
  datatype Option<+T> = None | Some(value: T)

  datatype Result<+T, +E> = Ok(value: T) | Err(error: E)

  /** JSON integers above this value are refused by the canonicalizer and by the record checks. */
  const MAX_SAFE_INTEGER: int := 9_007_199_254_740_991

  ghost predicate Distinct<T(!new)>(xs: seq<T>) {
    forall i, j :: 0 <= i < j < |xs| ==> xs[i] != xs[j]
  }

  /** Strictly before in Python's `str` order. */
  predicate LexLess(a: string, b: string) {
    b != [] && (a == [] || a[0] < b[0] || (a[0] == b[0] && LexLess(a[1..], b[1..])))
  }

  lemma {:induction false} LexLessIrreflexive(a: string)
    ensures !LexLess(a, a)
  {
    if a != [] {
      LexLessIrreflexive(a[1..]);
    }
  }

  lemma {:induction false} LexLessTransitive(a: string, b: string, c: string)
    requires LexLess(a, b) && LexLess(b, c)
    ensures LexLess(a, c)
  {
    if a != [] && a[0] == b[0] == c[0] {
      LexLessTransitive(a[1..], b[1..], c[1..]);
    }
  }

  lemma {:induction false} LexLessTotal(a: string, b: string)
    ensures a == b || LexLess(a, b) || LexLess(b, a)
  {
    if a != [] && b != [] && a[0] == b[0] {
      LexLessTotal(a[1..], b[1..]);
      assert a == [a[0]] + a[1..] && b == [b[0]] + b[1..];
    }
  }

  ghost predicate StrictlyOrdered<T>(xs: seq<T>, key: T -> string) {
    forall i, j :: 0 <= i < j < |xs| ==> LexLess(key(xs[i]), key(xs[j]))
  }

  function InsertByKey<T>(x: T, xs: seq<T>, key: T -> string): (r: seq<T>)
    ensures multiset(r) == multiset(xs) + multiset{x}
    ensures |r| == |xs| + 1
  {
    if xs == [] || !LexLess(key(xs[0]), key(x)) then
      [x] + xs
    else
      assert xs == [xs[0]] + xs[1..];
      [xs[0]] + InsertByKey(x, xs[1..], key)
  }

  /** Python's stable `sorted(xs, key=...)`. */
  function SortByKey<T>(xs: seq<T>, key: T -> string): (r: seq<T>)
    ensures multiset(r) == multiset(xs)
    ensures |r| == |xs|
  {
    if xs == [] then [] else
    assert xs == [xs[0]] + xs[1..];
    InsertByKey(xs[0], SortByKey(xs[1..], key), key)
  }

  lemma {:induction false} InsertKeepsOrder<T>(x: T, xs: seq<T>, key: T -> string)
    requires StrictlyOrdered(xs, key)
    requires forall y :: y in xs ==> key(y) != key(x)
    ensures StrictlyOrdered(InsertByKey(x, xs, key), key)
  {
    if xs != [] {
      LexLessTotal(key(xs[0]), key(x));
      if LexLess(key(xs[0]), key(x)) {
        InsertKeepsOrder(x, xs[1..], key);
        var rest := InsertByKey(x, xs[1..], key);
        forall j | 0 <= j < |rest| ensures LexLess(key(xs[0]), key(rest[j])) {
          assert rest[j] in multiset(rest);
          assert rest[j] == x || rest[j] in multiset(xs[1..]);
        }
      } else {
        assert xs[0] in xs;
        forall j | 0 <= j < |xs| ensures LexLess(key(x), key(xs[j])) {
          if j > 0 { LexLessTransitive(key(x), key(xs[0]), key(xs[j])); }
        }
      }
    }
  }

  /** Sorting by pairwise different keys gives the strictly ordered arrangement. */
  lemma {:induction false} SortOrders<T>(xs: seq<T>, key: T -> string)
    requires forall i, j :: 0 <= i < j < |xs| ==> key(xs[i]) != key(xs[j])
    ensures StrictlyOrdered(SortByKey(xs, key), key)
  {
    if xs != [] {
      SortOrders(xs[1..], key);
      var tail := SortByKey(xs[1..], key);
      forall y | y in tail ensures key(y) != key(xs[0]) {
        assert y in multiset(tail);
        var j :| 0 <= j < |xs[1..]| && xs[1..][j] == y;
        assert xs[j + 1] == y;
      }
      InsertKeepsOrder(xs[0], tail, key);
    }
  }

  /** There is only one strictly ordered arrangement of a set. */
  lemma {:induction false} OrderedIsUnique<T>(xs: seq<T>, ys: seq<T>, key: T -> string)
    requires StrictlyOrdered(xs, key) && StrictlyOrdered(ys, key)
    requires forall x :: x in xs <==> x in ys
    ensures xs == ys
  {
    assert |ys| > 0 ==> ys[0] in ys;
    if xs != [] {
      assert xs[0] in ys;
      var i :| 0 <= i < |ys| && ys[i] == xs[0];
      assert ys[0] in xs;
      var j :| 0 <= j < |xs| && xs[j] == ys[0];
      if i > 0 && j > 0 {
        LexLessTransitive(key(xs[0]), key(xs[j]), key(xs[0]));
        LexLessIrreflexive(key(xs[0]));
      }
      assert xs[0] == ys[0];
      forall x ensures x in xs[1..] <==> x in ys[1..] {
        LexLessIrreflexive(key(xs[0]));
        if x in xs[1..] {
          assert x in xs && x != xs[0];
          assert x in ys;
        }
        if x in ys[1..] {
          assert x in ys && x != ys[0];
          assert x in xs;
        }
      }
      OrderedIsUnique(xs[1..], ys[1..], key);
      assert xs == [xs[0]] + xs[1..] && ys == [ys[0]] + ys[1..];
    }
  }

  /** `str.lower` on the ASCII letters. */
  function LowerChar(c: char): char {
    if 'A' <= c <= 'Z' then c - 'A' + 'a' else c
  }

  function Lower(s: string): (r: string)
    ensures |r| == |s|
    ensures forall i :: 0 <= i < |s| ==> r[i] == LowerChar(s[i])
  {
    seq(|s|, i requires 0 <= i < |s| => LowerChar(s[i]))
  }

  function Filter<T>(keep: T -> bool, xs: seq<T>): (r: seq<T>)
    ensures forall x :: x in r ==> x in xs && keep(x)
  {
    if xs == [] then []
    else (if keep(xs[0]) then [xs[0]] else []) + Filter(keep, xs[1..])
  }

  lemma {:induction false} FilterConcat<T>(keep: T -> bool, xs: seq<T>, ys: seq<T>)
    ensures Filter(keep, xs + ys) == Filter(keep, xs) + Filter(keep, ys)
  {
    if xs == [] {
      assert xs + ys == ys;
    } else {
      assert (xs + ys)[0] == xs[0] && (xs + ys)[1..] == xs[1..] + ys;
      FilterConcat(keep, xs[1..], ys);
    }
  }

  /** Showdown's `toID`: lower case, ASCII letters and digits only. */
  function ToId(s: string): string {
    Filter(c => 'a' <= c <= 'z' || '0' <= c <= '9', Lower(s))
  }

  /** An id keeps the letters and digits of a text, letters in lower case. */
  lemma IdIsSpelled(c: char, s: string)
    ensures ToId([]) == []
    ensures ToId([c] + s)
         == (if 'a' <= c <= 'z' || '0' <= c <= '9' then [c] else if 'A' <= c <= 'Z' then [c - 'A' + 'a'] else [])
            + ToId(s)
  {
    assert Lower([c] + s) == [LowerChar(c)] + Lower(s);
    assert ([LowerChar(c)] + Lower(s))[1..] == Lower(s);
  }
}
