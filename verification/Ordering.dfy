/** Byte-wise text order, stable sorting by a key, and sorted sets of texts. */
module Ordering {

  /** Strictly earlier in dictionary order. */
  predicate Before(a: string, b: string)
  {
    if b == "" then false
    else if a == "" then true
    else a[0] < b[0] || (a[0] == b[0] && Before(a[1..], b[1..]))
  }

  lemma {:induction false} NeverBeforeItself(a: string)
    ensures !Before(a, a)
  {
    if a != "" { NeverBeforeItself(a[1..]); }
  }

  lemma {:induction false} BeforeIsTotal(a: string, b: string)
    ensures a != b ==> Before(a, b) || Before(b, a)
    ensures !(Before(a, b) && Before(b, a)) && !Before(a, a)
  {
    NeverBeforeItself(a);
    if a != "" && b != "" {
      BeforeIsTotal(a[1..], b[1..]);
      assert a == [a[0]] + a[1..] && b == [b[0]] + b[1..];
    }
  }

  /** The first place where two texts differ, neither being a start of the other. */
  predicate DifferAt(a: string, b: string, k: nat)
  {
    k < |a| && k < |b| && a[..k] == b[..k] && a[k] != b[k]
  }

  lemma StartsAgree(a: string, b: string, k: nat)
    requires 0 < k <= |a| && k <= |b| && a[..k] == b[..k]
    ensures a[0] == b[0]
  {
    assert a[..k][0] == a[0] && b[..k][0] == b[0];
  }

  /** The usual order of texts: a start comes before what it starts, and otherwise the first
      character that differs decides. */
  lemma {:induction false} BeforeIsLexicographic(a: string, b: string)
    ensures Before(a, b) <==> (a < b || exists k: nat :: DifferAt(a, b, k) && a[k] < b[k])
  {
    if a != "" && b != "" && a[0] == b[0] {
      BeforeIsLexicographic(a[1..], b[1..]);
      assert a == [a[0]] + a[1..] && b == [b[0]] + b[1..];
      assert a < b <==> a[1..] < b[1..];
      forall k: nat | DifferAt(a[1..], b[1..], k) ensures DifferAt(a, b, k + 1) && a[k + 1] == a[1..][k] && b[k + 1] == b[1..][k] {
        assert a[..k + 1] == [a[0]] + a[1..][..k] && b[..k + 1] == [b[0]] + b[1..][..k];
      }
      forall k: nat | DifferAt(a, b, k) ensures k > 0 && DifferAt(a[1..], b[1..], k - 1) && a[k] == a[1..][k - 1] && b[k] == b[1..][k - 1] {
        if k > 0 { assert a[..k][1..] == a[1..][..k - 1] && b[..k][1..] == b[1..][..k - 1]; }
      }
    } else if a != "" && b != "" && a[0] < b[0] {
      assert DifferAt(a, b, 0);
    } else if a != "" && b != "" {
      forall k: nat ensures !DifferAt(a, b, k) || k == 0 {
        if DifferAt(a, b, k) && k > 0 { StartsAgree(a, b, k); }
      }
    }
  }

  lemma {:induction false} BeforeIsTransitive(a: string, b: string, c: string)
    requires Before(a, b) && Before(b, c)
    ensures Before(a, c)
  {
    if a != "" && a[0] == b[0] == c[0] {
      BeforeIsTransitive(a[1..], b[1..], c[1..]);
    }
  }

  // ---------------------------------------------------------------- permutations

  lemma Around<T>(b: seq<T>, j: nat)
    requires j < |b|
    ensures b == b[..j] + [b[j]] + b[j + 1..]
  {
  }

  lemma RemoveAt<T>(b: seq<T>, j: nat)
    requires j < |b|
    ensures multiset(b) == multiset{b[j]} + multiset(b[..j] + b[j + 1..])
  {
    assert b == b[..j] + [b[j]] + b[j + 1..];
  }

  lemma RestsAgree<T>(a: seq<T>, b: seq<T>, j: nat)
    requires a != [] && j < |b| && a[0] == b[j] && multiset(a) == multiset(b)
    ensures multiset(a[1..]) == multiset(b[..j] + b[j + 1..])
  {
    RemoveAt(b, j);
    assert a == [a[0]] + a[1..];
    assert multiset(a) == multiset{a[0]} + multiset(a[1..]);
    assert multiset(a[1..]) == multiset(a) - multiset{a[0]};
    assert multiset(b[..j] + b[j + 1..]) == multiset(b) - multiset{b[j]};
  }

  lemma Find<T>(a: seq<T>, b: seq<T>) returns (j: nat)
    requires a != [] && multiset(a) == multiset(b)
    ensures j < |b| && b[j] == a[0]
  {
    assert a[0] in multiset(b);
    j :| 0 <= j < |b| && b[j] == a[0];
  }

  lemma Middle<T>(x: seq<T>, h: T, y: seq<T>)
    ensures multiset(x + [h] + y) == multiset{h} + multiset(x + y)
  {
  }

  // ---------------------------------------------------------------- stable sorting

  /** Before every element whose key is no smaller, so that equal keys keep their order. */
  function Insert<T>(x: T, ys: seq<T>, key: T -> string): seq<T>
  {
    if ys == [] then [x]
    else if Before(key(ys[0]), key(x)) then [ys[0]] + Insert(x, ys[1..], key)
    else [x] + ys
  }

  function StableSort<T>(xs: seq<T>, key: T -> string): seq<T>
  {
    if xs == [] then [] else Insert(xs[0], StableSort(xs[1..], key), key)
  }

  /** No later than. */
  predicate AtMost(a: string, b: string) { !Before(b, a) }

  lemma AtMostIsTransitive(a: string, b: string, c: string)
    requires AtMost(a, b) && AtMost(b, c)
    ensures AtMost(a, c)
  {
    BeforeIsTotal(b, c);
    BeforeIsTotal(a, b);
    if Before(c, a) {
      if b == c {
      } else {
        BeforeIsTransitive(b, c, a);
      }
    }
  }

  ghost predicate Heads<T>(x: T, ys: seq<T>, key: T -> string)
  {
    forall y :: y in ys ==> AtMost(key(x), key(y))
  }

  ghost predicate SortedBy<T>(xs: seq<T>, key: T -> string)
  {
    xs == [] || (Heads(xs[0], xs[1..], key) && SortedBy(xs[1..], key))
  }

  lemma {:induction false} InsertSorts<T>(x: T, ys: seq<T>, key: T -> string)
    requires SortedBy(ys, key)
    ensures SortedBy(Insert(x, ys, key), key) && multiset(Insert(x, ys, key)) == multiset{x} + multiset(ys)
  {
    if ys != [] {
      assert ys == [ys[0]] + ys[1..];
      if Before(key(ys[0]), key(x)) {
        var tail := Insert(x, ys[1..], key);
        InsertSorts(x, ys[1..], key);
        BeforeIsTotal(key(x), key(ys[0]));
        forall y | y in tail ensures AtMost(key(ys[0]), key(y)) {
          assert y in multiset(tail);
        }
        assert ([ys[0]] + tail)[1..] == tail;
      } else {
        forall y | y in ys ensures AtMost(key(x), key(y)) {
          if y != ys[0] { AtMostIsTransitive(key(x), key(ys[0]), key(y)); }
        }
        assert ([x] + ys)[1..] == ys;
      }
    }
  }

  lemma {:induction false} SortSorts<T>(xs: seq<T>, key: T -> string)
    ensures SortedBy(StableSort(xs, key), key) && multiset(StableSort(xs, key)) == multiset(xs)
  {
    if xs != [] {
      SortSorts(xs[1..], key);
      InsertSorts(xs[0], StableSort(xs[1..], key), key);
      assert xs == [xs[0]] + xs[1..];
    }
  }

  function WithKey<T>(xs: seq<T>, key: T -> string, k: string): seq<T>
  {
    if xs == [] then []
    else if key(xs[0]) == k then [xs[0]] + WithKey(xs[1..], key, k)
    else WithKey(xs[1..], key, k)
  }

  lemma {:induction false} InsertIsStable<T>(x: T, ys: seq<T>, key: T -> string, k: string)
    ensures WithKey(Insert(x, ys, key), key, k) == (if key(x) == k then [x] else []) + WithKey(ys, key, k)
  {
    if ys != [] {
      BeforeIsTotal(key(x), key(ys[0]));
      if Before(key(ys[0]), key(x)) {
        InsertIsStable(x, ys[1..], key, k);
        assert Insert(x, ys, key)[1..] == Insert(x, ys[1..], key);
      } else {
        assert Insert(x, ys, key)[1..] == ys;
      }
    }
  }

  /** Elements with one key keep the order they came in. */
  lemma {:induction false} SortIsStable<T>(xs: seq<T>, key: T -> string, k: string)
    ensures WithKey(StableSort(xs, key), key, k) == WithKey(xs, key, k)
  {
    if xs != [] {
      SortIsStable(xs[1..], key, k);
      InsertIsStable(xs[0], StableSort(xs[1..], key), key, k);
    }
  }

  predicate KeysDecide<T(==)>(xs: seq<T>, key: T -> string)
  {
    forall i, j :: 0 <= i < |xs| && 0 <= j < |xs| && key(xs[i]) == key(xs[j]) ==> xs[i] == xs[j]
  }

  /** Two sorted arrangements of the same elements agree when keys decide elements. */
  lemma {:induction false} SortedIsUnique<T>(xs: seq<T>, ys: seq<T>, key: T -> string)
    requires SortedBy(xs, key) && SortedBy(ys, key) && multiset(xs) == multiset(ys) && KeysDecide(xs, key)
    ensures xs == ys
  {
    if xs == [] || ys == [] {
      assert |multiset(xs)| == |xs| && |multiset(ys)| == |ys|;
    } else {
      SameHead(xs, ys, key);
      RestsAgree(xs, ys, 0);
      KeysDecideTail(xs, key);
      assert ys[..0] + ys[1..] == ys[1..];
      hide Heads, KeysDecide;
      SortedIsUnique(xs[1..], ys[1..], key);
    }
  }

  lemma KeysDecideTail<T>(xs: seq<T>, key: T -> string)
    requires KeysDecide(xs, key) && xs != []
    ensures KeysDecide(xs[1..], key)
  {
  }

  lemma SameHead<T>(xs: seq<T>, ys: seq<T>, key: T -> string)
    requires xs != [] && ys != [] && SortedBy(xs, key) && SortedBy(ys, key)
    requires multiset(xs) == multiset(ys) && KeysDecide(xs, key)
    ensures xs[0] == ys[0]
  {
    assert xs[0] in multiset(ys) && ys[0] in multiset(xs);
    assert xs == [xs[0]] + xs[1..] && ys == [ys[0]] + ys[1..];
    BeforeIsTotal(key(xs[0]), key(ys[0]));
    NeverBeforeItself(key(xs[0]));
    var i :| 0 <= i < |xs| && xs[i] == ys[0];
  }

  /** Sorting forgets the order of the input exactly where keys decide elements. */
  lemma SortForgetsOrder<T>(xs: seq<T>, ys: seq<T>, key: T -> string)
    requires multiset(xs) == multiset(ys) && KeysDecide(xs, key)
    ensures StableSort(xs, key) == StableSort(ys, key)
  {
    SortSorts(xs, key);
    SortSorts(ys, key);
    var a := StableSort(xs, key);
    forall i, j | 0 <= i < |a| && 0 <= j < |a| && key(a[i]) == key(a[j]) ensures a[i] == a[j] {
      assert a[i] in multiset(xs) && a[j] in multiset(xs);
    }
    SortedIsUnique(a, StableSort(ys, key), key);
  }

  // ---------------------------------------------------------------- sorted sets

  /** First occurrences, in order. */
  function Dedup(xs: seq<string>): seq<string>
  {
    if xs == [] then []
    else
      var before := Dedup(xs[..|xs| - 1]);
      if xs[|xs| - 1] in before then before else before + [xs[|xs| - 1]]
  }

  predicate Distinct(xs: seq<string>) { forall i, j :: 0 <= i < j < |xs| ==> xs[i] != xs[j] }

  lemma {:induction false} DedupKeepsSet(xs: seq<string>)
    ensures Distinct(Dedup(xs)) && forall x :: x in Dedup(xs) <==> x in xs
  {
    if xs != [] {
      DedupKeepsSet(xs[..|xs| - 1]);
      assert xs == xs[..|xs| - 1] + [xs[|xs| - 1]];
    }
  }

  function Itself(s: string): string { s }

  function SortedUnique(xs: seq<string>): seq<string> { StableSort(Dedup(xs), Itself) }

  lemma {:induction false} DistinctDecidedBySet(xs: seq<string>, ys: seq<string>)
    requires Distinct(xs) && Distinct(ys) && forall x :: x in xs <==> x in ys
    ensures multiset(xs) == multiset(ys)
  {
    forall x ensures multiset(xs)[x] == multiset(ys)[x] {
      DistinctCounts(xs, x);
      DistinctCounts(ys, x);
    }
  }

  lemma {:induction false} DistinctCounts(xs: seq<string>, x: string)
    requires Distinct(xs)
    ensures multiset(xs)[x] == if x in xs then 1 else 0
  {
    if xs != [] {
      assert xs == [xs[0]] + xs[1..];
      DistinctCounts(xs[1..], x);
      forall k | 0 <= k < |xs[1..]| ensures xs[1..][k] != xs[0] {
        assert xs[k + 1] != xs[0];
      }
    }
  }

  /** The sorted set depends only on the set: repeats and order are forgotten. */
  lemma SetDecides(xs: seq<string>, ys: seq<string>)
    requires forall x :: x in xs <==> x in ys
    ensures SortedUnique(xs) == SortedUnique(ys)
  {
    DedupKeepsSet(xs);
    DedupKeepsSet(ys);
    DistinctDecidedBySet(Dedup(xs), Dedup(ys));
    SortForgetsOrder(Dedup(xs), Dedup(ys), Itself);
  }

  /** What it holds: exactly the members, strictly ascending. */
  lemma SortedUniqueIsSet(xs: seq<string>)
    ensures forall x :: x in SortedUnique(xs) <==> x in xs
    ensures forall i, j :: 0 <= i < j < |SortedUnique(xs)| ==> Before(SortedUnique(xs)[i], SortedUnique(xs)[j])
  {
    DedupKeepsSet(xs);
    SortSorts(Dedup(xs), Itself);
    var out := SortedUnique(xs);
    forall x ensures x in out <==> x in Dedup(xs) {
      assert x in multiset(out) <==> x in multiset(Dedup(xs));
    }
    forall i, j | 0 <= i < j < |out| ensures Before(out[i], out[j]) {
      BeforeIsTotal(out[i], out[j]);
      SortedHasNoRepeat(Dedup(xs), out, i, j);
      SortedAt(out, Itself, i, j);
    }
  }

  lemma {:induction false} SortedAt<T>(xs: seq<T>, key: T -> string, i: nat, j: nat)
    requires SortedBy(xs, key) && i < j < |xs|
    ensures AtMost(key(xs[i]), key(xs[j]))
  {
    if i == 0 {
      assert xs[j] == xs[1..][j - 1];
    } else {
      SortedAt(xs[1..], key, i - 1, j - 1);
    }
  }

  lemma SortedHasNoRepeat(xs: seq<string>, ys: seq<string>, i: nat, j: nat)
    requires Distinct(xs) && multiset(xs) == multiset(ys) && i < j < |ys|
    ensures ys[i] != ys[j]
  {
    DistinctCounts(xs, ys[i]);
    if ys[i] == ys[j] { CountedTwice(ys, i, j); }
  }

  lemma CountedTwice(ys: seq<string>, i: nat, j: nat)
    requires i < j < |ys| && ys[i] == ys[j]
    ensures multiset(ys)[ys[i]] >= 2
  {
    assert ys == ys[..j] + [ys[j]] + ys[j + 1..];
    assert ys[..j][i] == ys[i];
    assert multiset(ys) == multiset(ys[..j]) + multiset{ys[j]} + multiset(ys[j + 1..]);
  }

  method SortedUniqueOf(values: seq<string>) returns (out: seq<string>)
    ensures out == SortedUnique(values)
  {
    var kept, seen: set<string> := [], {};
    for i := 0 to |values|
      invariant kept == Dedup(values[..i]) && forall x :: x in seen <==> x in kept
    {
      assert values[..i + 1][..i] == values[..i];
      if values[i] !in seen {
        seen := seen + {values[i]};
        kept := kept + [values[i]];
      }
    }
    assert values[..|values|] == values;
    out := StableSort(kept, Itself);
  }

  // ---------------------------------------------------------------- separators

  /** Where a character first stands. */
  function FirstOf(c: char, s: string): (k: nat)
    ensures k <= |s|
  {
    if s == "" || s[0] == c then 0 else 1 + FirstOf(c, s[1..])
  }

  lemma {:induction false} FirstAfter(c: char, a: string, x: string)
    requires c !in a
    ensures FirstOf(c, a + ([c] + x)) == |a|
  {
    if a == "" {
      assert a + ([c] + x) == [c] + x;
    } else {
      assert (a + ([c] + x))[1..] == a[1..] + ([c] + x);
      FirstAfter(c, a[1..], x);
    }
  }

  /** Text up to a separator that it does not contain can be told from what follows. */
  lemma SplitsOnce(c: char, a: string, x: string, b: string, y: string)
    requires c !in a && c !in b && a + ([c] + x) == b + ([c] + y)
    ensures a == b && x == y
  {
    FirstAfter(c, a, x);
    FirstAfter(c, b, y);
    var s, t := a + ([c] + x), b + ([c] + y);
    assert s[..|a|] == a && t[..|b|] == b;
    assert s[|a| + 1..] == x && t[|b| + 1..] == y;
  }
}
