/** Ordering by a numeric key, largest first, the way the back end ranks with
    `list.sort(key=..., reverse=True)`, `sorted(..., reverse=True)` and
    `Counter.most_common(k)`: all three are stable, so elements with equal keys
    keep their original relative order. The sort below is the value-level
    insertion sort that has exactly that behaviour. */
module Ranking {
  import Common
  import Tally

  /** Keys never increase from left to right. */
  predicate SortedDesc<T>(s: seq<T>, key: T -> real)
  {
    forall i, j :: 0 <= i < j < |s| ==> key(s[i]) >= key(s[j])
  }

  /** Insert `x` into a descending sequence after every element whose key is
      at least `x`'s, so that earlier equal-keyed elements stay in front. */
  function InsertDesc<T(==)>(x: T, s: seq<T>, key: T -> real): (r: seq<T>)
    ensures |r| == |s| + 1
  {
    if s == [] then [x]
    else if key(s[0]) >= key(x) then
      assert s == [s[0]] + s[1..];
      [s[0]] + InsertDesc(x, s[1..], key)
    else
      [x] + s
  }

  /** Inserting adds exactly `x`. */
  lemma {:induction false} InsertDescPermutes<T>(x: T, s: seq<T>, key: T -> real)
    ensures multiset(InsertDesc(x, s, key)) == multiset(s) + multiset{x}
  {
    if s != [] && key(s[0]) >= key(x) {
      InsertDescPermutes(x, s[1..], key);
      assert s == [s[0]] + s[1..];
    }
  }

  lemma {:induction false} InsertDescSorted<T>(x: T, s: seq<T>, key: T -> real)
    requires SortedDesc(s, key)
    ensures SortedDesc(InsertDesc(x, s, key), key)
  {
    if s != [] && key(s[0]) >= key(x) {
      var rest := InsertDesc(x, s[1..], key);
      InsertDescSorted(x, s[1..], key);
      InsertDescPermutes(x, s[1..], key);
      forall k | 0 <= k < |rest| ensures key(s[0]) >= key(rest[k]) {
        assert rest[k] in multiset(rest);
        if rest[k] != x {
          assert rest[k] in multiset(s[1..]);
          var m :| 0 <= m < |s[1..]| && s[1..][m] == rest[k];
          assert s[m + 1] == rest[k];
        }
      }
    }
  }

  /** Sort, largest key first; `SortDescStable` shows ties keep their order. */
  function SortDesc<T(==)>(s: seq<T>, key: T -> real): (r: seq<T>)
    ensures |r| == |s|
    ensures SortedDesc(r, key)
  {
    if s == [] then []
    else
      var prefix := SortDesc(s[..|s| - 1], key);
      InsertDescSorted(s[|s| - 1], prefix, key);
      InsertDesc(s[|s| - 1], prefix, key)
  }

  /** Sorting only reorders. */
  lemma {:induction false} SortDescPermutes<T>(s: seq<T>, key: T -> real)
    ensures multiset(SortDesc(s, key)) == multiset(s)
  {
    if s != [] {
      var init := s[..|s| - 1];
      SortDescPermutes(init, key);
      InsertDescPermutes(s[|s| - 1], SortDesc(init, key), key);
      assert s == init + [s[|s| - 1]];
    }
  }

  // ---------------------------------------------------------------------
  // Stability
  // ---------------------------------------------------------------------

  /** The elements of `s` whose key is `v`, in their order in `s`. */
  function WithKey<T>(s: seq<T>, key: T -> real, v: real): (r: seq<T>)
    ensures |r| <= |s|
  {
    if s == [] then []
    else (if key(s[0]) == v then [s[0]] else []) + WithKey(s[1..], key, v)
  }

  lemma {:induction false} WithKeyAppend<T>(a: seq<T>, b: seq<T>, key: T -> real, v: real)
    ensures WithKey(a + b, key, v) == WithKey(a, key, v) + WithKey(b, key, v)
  {
    if a == [] {
      assert a + b == b;
    } else {
      assert (a + b)[0] == a[0];
      assert (a + b)[1..] == a[1..] + b;
      WithKeyAppend(a[1..], b, key, v);
      var h := if key(a[0]) == v then [a[0]] else [];
      calc {
        WithKey(a + b, key, v);
        h + WithKey(a[1..] + b, key, v);
        h + (WithKey(a[1..], key, v) + WithKey(b, key, v));
        (h + WithKey(a[1..], key, v)) + WithKey(b, key, v);
        WithKey(a, key, v) + WithKey(b, key, v);
      }
    }
  }

  /** A single element is kept exactly when it has the key. */
  lemma WithKeyOne<T>(x: T, key: T -> real, v: real)
    ensures WithKey([x], key, v) == if key(x) == v then [x] else []
  {
    assert [x][1..] == [];
  }

  /** A prefix keeps, for every key, a prefix of the elements with that key. */
  lemma WithKeyPrefix<T>(a: seq<T>, b: seq<T>, key: T -> real, v: real)
    requires a <= b
    ensures WithKey(a, key, v) <= WithKey(b, key, v)
  {
    assert b == a + b[|a|..];
    WithKeyAppend(a, b[|a|..], key, v);
  }

  /** No element has key `v` when every key is below `v`. */
  lemma {:induction false} WithKeyBelow<T>(s: seq<T>, key: T -> real, v: real)
    requires forall i :: 0 <= i < |s| ==> key(s[i]) < v
    ensures WithKey(s, key, v) == []
  {
    if s != [] {
      WithKeyBelow(s[1..], key, v);
    }
  }

  /** Inserting `x` puts it behind every element that already has its key. */
  lemma {:induction false} InsertDescStable<T>(x: T, s: seq<T>, key: T -> real, v: real)
    requires SortedDesc(s, key)
    ensures WithKey(InsertDesc(x, s, key), key, v) == WithKey(s, key, v) + WithKey([x], key, v)
  {
    WithKeyOne(x, key, v);
    if s == [] {
      assert InsertDesc(x, s, key) == [x];
    } else if key(s[0]) >= key(x) {
      var rest := InsertDesc(x, s[1..], key);
      assert InsertDesc(x, s, key) == [s[0]] + rest;
      assert SortedDesc(s[1..], key);
      InsertDescStable(x, s[1..], key, v);
      WithKeyAppend([s[0]], rest, key, v);
      WithKeyAppend([s[0]], s[1..], key, v);
      assert s == [s[0]] + s[1..];
      var h := WithKey([s[0]], key, v);
      calc {
        WithKey(InsertDesc(x, s, key), key, v);
        h + WithKey(rest, key, v);
        h + (WithKey(s[1..], key, v) + WithKey([x], key, v));
        (h + WithKey(s[1..], key, v)) + WithKey([x], key, v);
        WithKey(s, key, v) + WithKey([x], key, v);
      }
    } else {
      assert InsertDesc(x, s, key) == [x] + s;
      if key(x) == v {
        assert forall i :: 0 <= i < |s| ==> key(s[i]) <= key(s[0]);
        WithKeyBelow(s, key, v);
      }
      WithKeyAppend([x], s, key, v);
    }
  }

  /** `SortDesc` is stable: for every key, the elements with that key come
      out in the order they went in. */
  lemma {:induction false} SortDescStable<T>(s: seq<T>, key: T -> real, v: real)
    ensures WithKey(SortDesc(s, key), key, v) == WithKey(s, key, v)
  {
    if s != [] {
      var init := s[..|s| - 1];
      var last := s[|s| - 1];
      SortDescStable(init, key, v);
      InsertDescStable(last, SortDesc(init, key), key, v);
      assert s == init + [last];
      WithKeyAppend(init, [last], key, v);
    }
  }

  /** Index `i` holds the first element of maximal key, the one Python's
      `max(s, key=...)` returns. */
  predicate IsFirstMaximal<T>(s: seq<T>, key: T -> real, i: int)
  {
    0 <= i < |s|
    && (forall j :: 0 <= j < |s| ==> key(s[j]) <= key(s[i]))
    && (forall j :: 0 <= j < i ==> key(s[j]) < key(s[i]))
  }

  /** A non-empty sequence has a first maximal element. */
  lemma {:induction false} FirstMaximalExists<T>(s: seq<T>, key: T -> real) returns (i: nat)
    requires s != []
    ensures IsFirstMaximal(s, key, i)
  {
    if |s| == 1 {
      i := 0;
    } else {
      var k := FirstMaximalExists(s[..|s| - 1], key);
      assert forall j :: 0 <= j < |s| - 1 ==> s[..|s| - 1][j] == s[j];
      i := if key(s[|s| - 1]) > key(s[k]) then |s| - 1 else k;
    }
  }

  /** A sequence that starts with key `v` lists its head first among the
      elements with key `v`. */
  lemma WithKeyHead<T>(s: seq<T>, key: T -> real, v: real)
    requires s != [] && key(s[0]) == v
    ensures WithKey(s, key, v) != [] && WithKey(s, key, v)[0] == s[0]
  {
  }

  /** The first element of maximal key is the first one with that key. */
  lemma WithKeyFirstMaximal<T>(s: seq<T>, key: T -> real, i: int)
    requires IsFirstMaximal(s, key, i)
    ensures WithKey(s, key, key(s[i])) != [] && WithKey(s, key, key(s[i]))[0] == s[i]
  {
    var v := key(s[i]);
    assert s == s[..i] + s[i..];
    WithKeyAppend(s[..i], s[i..], key, v);
    WithKeyBelow(s[..i], key, v);
    WithKeyHead(s[i..], key, v);
  }

  /** Stability at the top: the head of the sorted sequence is the first
      element of maximal key, so ties for first place go to the earliest. */
  lemma HeadIsFirstMaximal<T>(s: seq<T>, key: T -> real, i: int)
    requires IsFirstMaximal(s, key, i)
    ensures SortDesc(s, key)[0] == s[i]
  {
    var sorted := SortDesc(s, key);
    var v := key(s[i]);
    HeadIsMaximal(s, key, s[i]);
    SortDescPermutes(s, key);
    assert sorted[0] in multiset(s);
    assert key(sorted[0]) == v;
    WithKeyHead(sorted, key, v);
    WithKeyFirstMaximal(s, key, i);
    SortDescStable(s, key, v);
  }

  /** The first element of a sorted result has a key at least that of every input element. */
  lemma HeadIsMaximal<T>(s: seq<T>, key: T -> real, y: T)
    requires y in s
    ensures |SortDesc(s, key)| > 0
    ensures key(SortDesc(s, key)[0]) >= key(y)
  {
    var r := SortDesc(s, key);
    SortDescPermutes(s, key);
    assert y in multiset(s);
    assert y in multiset(r);
    var j :| 0 <= j < |r| && r[j] == y;
    assert j == 0 || key(r[0]) >= key(r[j]);
  }

  /** Python's `s[:k]`: the first `k` elements, or all of them when there are fewer. */
  function Take<T>(s: seq<T>, k: nat): (r: seq<T>)
    ensures |r| == if k < |s| then k else |s|
    ensures r <= s
  {
    if k < |s| then s[..k] else s
  }

  /** Python's `s[a:b]` for non-negative bounds, clamped to the sequence. */
  function Slice<T>(s: seq<T>, a: nat, b: nat): (r: seq<T>)
    ensures |r| <= |s|
    ensures a <= b && b <= |s| ==> r == s[a..b]
    ensures b <= a || |s| <= a ==> r == []
  {
    var lo := if a < |s| then a else |s|;
    var hi := if b < |s| then b else |s|;
    if lo <= hi then s[lo..hi] else []
  }

  /** The key `most_common` ranks tally entries by. */
  function CountKey<K>(e: (K, nat)): real { e.1 as real }

  /** The first `k` of a sorted sequence are still sorted and are drawn
      from the input. */
  lemma TopOfSorted<T>(s: seq<T>, k: nat, key: T -> real)
    ensures SortedDesc(Take(SortDesc(s, key), k), key)
    ensures forall x :: x in Take(SortDesc(s, key), k) ==> x in s
  {
    var sorted := SortDesc(s, key);
    var top := Take(sorted, k);
    SortDescPermutes(s, key);
    forall x | x in top
      ensures x in s
    {
      assert x in multiset(sorted);
    }
    forall i, j | 0 <= i < j < |top|
      ensures key(top[i]) >= key(top[j])
    {
      assert top[i] == sorted[i];
    }
  }

  /** `Counter.most_common(k)`: the `k` entries with the largest counts, ties in
      first-insertion order: for every count, the entries kept with that count
      are the first ones with it in the tally. */
  function MostCommon<K(==)>(t: seq<(K, nat)>, k: nat): (r: seq<(K, nat)>)
    ensures |r| == if k < |t| then k else |t|
    ensures forall i, j :: 0 <= i < j < |r| ==> r[i].1 >= r[j].1
    ensures forall i :: 0 <= i < |r| ==> r[i] in t
    ensures forall v :: WithKey(r, CountKey, v) <= WithKey(t, CountKey, v)
  {
    var r := Take(SortDesc(t, CountKey), k);
    TopFacts(t, k, r);
    r
  }

  lemma TopFacts<K>(t: seq<(K, nat)>, k: nat, r: seq<(K, nat)>)
    requires r == Take(SortDesc(t, CountKey), k)
    ensures forall i, j :: 0 <= i < j < |r| ==> r[i].1 >= r[j].1
    ensures forall i :: 0 <= i < |r| ==> r[i] in t
    ensures forall v :: WithKey(r, CountKey, v) <= WithKey(t, CountKey, v)
  {
    var sorted := SortDesc(t, CountKey);
    SortDescPermutes(t, CountKey);
    forall v ensures WithKey(r, CountKey, v) <= WithKey(t, CountKey, v) {
      WithKeyPrefix(r, sorted, CountKey, v);
      SortDescStable(t, CountKey, v);
    }
    forall i | 0 <= i < |r|
      ensures r[i] in t
    {
      assert r[i] == sorted[i];
      assert sorted[i] in multiset(sorted);
    }
    forall i, j | 0 <= i < j < |r|
      ensures r[i].1 >= r[j].1
    {
      assert CountKey(sorted[i]) >= CountKey(sorted[j]);
    }
  }

  /** Nothing `most_common` leaves out outranks what it keeps: an entry of the
      tally that is not reported means all `k` places were filled, each by an
      entry with at least its count. */
  lemma MostCommonIsTop<K>(t: seq<(K, nat)>, k: nat, e: (K, nat))
    requires e in t && e !in MostCommon(t, k)
    ensures |MostCommon(t, k)| == k
    ensures forall i :: 0 <= i < k ==> MostCommon(t, k)[i].1 >= e.1
  {
    var sorted := SortDesc(t, CountKey);
    var r := MostCommon(t, k);
    assert r == Take(sorted, k);
    SortDescPermutes(t, CountKey);
    assert e in multiset(t);
    assert e in multiset(sorted);
    var j :| 0 <= j < |sorted| && sorted[j] == e;
    assert forall i :: 0 <= i < |r| ==> r[i] == sorted[i];
    forall i | 0 <= i < k ensures r[i].1 >= e.1 {
      assert r[i] == sorted[i];
      assert CountKey(sorted[i]) >= CountKey(sorted[j]);
    }
  }

  /** `Counter(s).most_common(k)` reports true occurrence counts, and an
      element of `s` it leaves out occurs no more often than any it reports. */
  lemma TopOfTally<K>(s: seq<K>, k: nat, x: K)
    requires x in s && x !in Common.Keys(MostCommon(Tally.Tally(s), k))
    ensures var top := MostCommon(Tally.Tally(s), k);
      |top| == k
      && (forall i :: 0 <= i < k ==> top[i].1 == Tally.Count(s, top[i].0))
      && (forall i :: 0 <= i < k ==> Tally.Count(s, top[i].0) >= Tally.Count(s, x))
  {
    var t := Tally.Tally(s);
    var top := MostCommon(t, k);
    Tally.TallyCounts(s);
    Tally.TallyKeys(s);
    Tally.DistinctMembers(s);
    assert x in Common.Keys(t);
    var j :| 0 <= j < |t| && Common.Keys(t)[j] == x;
    Tally.LookupAt(t, j);
    var e := t[j];
    assert e.0 == x && e.1 == Tally.Count(s, x);
    assert forall m :: 0 <= m < |top| ==> Common.Keys(top)[m] == top[m].0;
    assert e !in top;
    MostCommonIsTop(t, k, e);
    forall i | 0 <= i < k ensures top[i].1 == Tally.Count(s, top[i].0) {
      var m :| 0 <= m < |t| && t[m] == top[i];
      Tally.LookupAt(t, m);
    }
  }

  /** Each entry `Counter(s).most_common(k)` reports is an element of `s`
      with its true number of occurrences. */
  lemma MostCommonOfTally<K>(s: seq<K>, k: nat)
    ensures var top := MostCommon(Tally.Tally(s), k);
      forall i :: 0 <= i < |top| ==> top[i].0 in s && top[i].1 == Tally.Count(s, top[i].0)
  {
    var t := Tally.Tally(s);
    var top := MostCommon(t, k);
    Tally.TallyCounts(s);
    Tally.TallyKeys(s);
    Tally.DistinctMembers(s);
    forall i | 0 <= i < |top| ensures top[i].0 in s && top[i].1 == Tally.Count(s, top[i].0) {
      var m :| 0 <= m < |t| && t[m] == top[i];
      assert Common.Keys(t)[m] == top[i].0;
      Tally.LookupAt(t, m);
    }
  }
}
