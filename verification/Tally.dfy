/** A counting dictionary that keeps its keys in first-insertion order: Python's
    `Counter` / `defaultdict(int)` and a JavaScript object used as
    `d[k] = (d[k] || 0) + 1`. A tally is a sequence of (key, count) entries;
    `Bump` is one increment and `Tally` is the result of incrementing once per
    element, left to right. */
module Tally {
  import opened Common

  /** Number of occurrences of `x` in `s`. */
  function Count<T(==)>(s: seq<T>, x: T): nat
  {
    if s == [] then 0 else Count(s[..|s| - 1], x) + (if s[|s| - 1] == x then 1 else 0)
  }

  /** The distinct elements of `s` in order of first occurrence. */
  function Distinct<T(==)>(s: seq<T>): seq<T>
  {
    if s == [] then []
    else
      var d := Distinct(s[..|s| - 1]);
      if s[|s| - 1] in d then d else d + [s[|s| - 1]]
  }

  /** Sum of the counts of a tally. */
  function Total<K>(t: seq<(K, nat)>): nat
  {
    if t == [] then 0 else t[0].1 + Total(t[1..])
  }

  /** No key appears twice. */
  predicate DistinctKeys<K(==)>(t: seq<(K, nat)>)
  {
    forall i, j :: 0 <= i < j < |t| ==> t[i].0 != t[j].0
  }

  /** `d[x] += 1`: increment the entry for `x`, or append `(x, 1)` when `x` is new. */
  function Bump<K(==)>(t: seq<(K, nat)>, x: K): (r: seq<(K, nat)>)
  {
    if t == [] then [(x, 1)]
    else if t[0].0 == x then [(x, t[0].1 + 1)] + t[1..]
    else [t[0]] + Bump(t[1..], x)
  }

  /** The tally of `s`: one `Bump` per element, in order. */
  function Tally<K(==)>(s: seq<K>): seq<(K, nat)>
  {
    if s == [] then [] else Bump(Tally(s[..|s| - 1]), s[|s| - 1])
  }

  /** The count stored for `x` (0 when `x` is not a key). */
  function Lookup<K(==)>(t: seq<(K, nat)>, x: K): nat
  {
    if t == [] then 0 else if t[0].0 == x then t[0].1 else Lookup(t[1..], x)
  }

  // ---------------------------------------------------------------------
  // What one increment does
  // ---------------------------------------------------------------------

  lemma {:induction false} BumpFacts<K>(t: seq<(K, nat)>, x: K)
    ensures Keys(Bump(t, x)) == if x in Keys(t) then Keys(t) else Keys(t) + [x]
    ensures Total(Bump(t, x)) == Total(t) + 1
    ensures forall y :: Lookup(Bump(t, x), y) == Lookup(t, y) + (if y == x then 1 else 0)
  {
    if t == [] {
    } else if t[0].0 == x {
      assert Bump(t, x)[1..] == t[1..];
    } else {
      BumpFacts(t[1..], x);
      assert Bump(t, x)[1..] == Bump(t[1..], x);
    }
  }

  lemma {:induction false} BumpKeepsDistinct<K>(t: seq<(K, nat)>, x: K)
    requires DistinctKeys(t)
    ensures DistinctKeys(Bump(t, x))
  {
    BumpFacts(t, x);
    var r := Bump(t, x);
    forall i, j | 0 <= i < j < |r| ensures r[i].0 != r[j].0 {
      assert Keys(r)[i] == r[i].0 && Keys(r)[j] == r[j].0;
    }
  }

  lemma {:induction false} BumpPositive<K>(t: seq<(K, nat)>, x: K)
    requires forall i :: 0 <= i < |t| ==> t[i].1 >= 1
    ensures forall i :: 0 <= i < |Bump(t, x)| ==> Bump(t, x)[i].1 >= 1
  {
    if t != [] && t[0].0 != x {
      BumpPositive(t[1..], x);
    }
  }

  // ---------------------------------------------------------------------
  // What a whole tally means
  // ---------------------------------------------------------------------

  /** The keys of the tally are the distinct elements, in first-seen order. */
  lemma {:induction false} TallyKeys<K>(s: seq<K>)
    ensures Keys(Tally(s)) == Distinct(s)
  {
    if s != [] {
      TallyKeys(s[..|s| - 1]);
      BumpFacts(Tally(s[..|s| - 1]), s[|s| - 1]);
    }
  }

  /** Each key's count is its number of occurrences, and every count is at least 1. */
  lemma {:induction false} TallyCounts<K>(s: seq<K>)
    ensures forall y :: Lookup(Tally(s), y) == Count(s, y)
    ensures forall i :: 0 <= i < |Tally(s)| ==> Tally(s)[i].1 >= 1
    ensures DistinctKeys(Tally(s))
  {
    if s != [] {
      TallyCounts(s[..|s| - 1]);
      BumpFacts(Tally(s[..|s| - 1]), s[|s| - 1]);
      BumpPositive(Tally(s[..|s| - 1]), s[|s| - 1]);
      BumpKeepsDistinct(Tally(s[..|s| - 1]), s[|s| - 1]);
    }
  }

  /** The counts add up to the number of elements tallied. */
  lemma {:induction false} TallyTotal<K>(s: seq<K>)
    ensures Total(Tally(s)) == |s|
  {
    if s != [] {
      TallyTotal(s[..|s| - 1]);
      BumpFacts(Tally(s[..|s| - 1]), s[|s| - 1]);
    }
  }

  /** The entry at position i of a tally with distinct keys is what Lookup finds. */
  lemma {:induction false} LookupAt<K>(t: seq<(K, nat)>, i: nat)
    requires DistinctKeys(t) && i < |t|
    ensures Lookup(t, t[i].0) == t[i].1
  {
    if i > 0 {
      LookupAt(t[1..], i - 1);
    }
  }

  /** An element is among the distinct elements exactly when it occurs in `s`. */
  lemma {:induction false} DistinctMembers<K>(s: seq<K>)
    ensures forall y :: y in Distinct(s) <==> y in s
  {
    if s != [] {
      DistinctMembers(s[..|s| - 1]);
      assert s == s[..|s| - 1] + [s[|s| - 1]];
    }
  }

  lemma {:induction false} CountSnoc<K>(s: seq<K>, x: K, y: K)
    ensures Count(s + [x], y) == Count(s, y) + (if x == y then 1 else 0)
  {
    assert (s + [x])[..|s + [x]| - 1] == s;
  }

  lemma {:induction false} TotalAppend<K>(a: seq<(K, nat)>, b: seq<(K, nat)>)
    ensures Total(a + b) == Total(a) + Total(b)
  {
    if a == [] {
      assert a + b == b;
    } else {
      TotalAppend(a[1..], b);
      assert (a + b)[1..] == a[1..] + b;
    }
  }

  /** Tallying a non-empty sequence gives a non-empty tally. */
  lemma TallyNonEmpty<K>(s: seq<K>)
    requires s != []
    ensures Tally(s) != []
  {
    TallyKeys(s);
    DistinctMembers(s);
    assert s[0] in s;
  }

  /** The total of a tally of one or two entries. */
  lemma TotalOfPair<K>(t: seq<(K, nat)>)
    requires 1 <= |t| <= 2
    ensures Total(t) == t[0].1 + (if |t| == 2 then t[1].1 else 0)
  {
    var tail := t[1..];
    if |t| == 2 {
      assert tail[1..] == [];
    } else {
      assert tail == [];
    }
  }
}
