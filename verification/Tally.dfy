/** Counters kept in a dictionary, in the order their keys first came up: `d[k] = d.get(k, 0) + 1`. */
module Tally {
  datatype Count<K> = Count(key: K, count: nat)

  function Bump<K(==)>(d: seq<Count<K>>, k: K): seq<Count<K>> {
    if |d| == 0 then [Count(k, 1)]
    else if d[0].key == k then [Count(k, d[0].count + 1)] + d[1..]
    else [d[0]] + Bump(d[1..], k)
  }

  // d.get(k, 0)
  function Get<K(==)>(d: seq<Count<K>>, k: K): nat {
    if |d| == 0 then 0 else if d[0].key == k then d[0].count else Get(d[1..], k)
  }

  function Total<K>(d: seq<Count<K>>): nat { if |d| == 0 then 0 else d[0].count + Total(d[1..]) }

  function Keys<K>(d: seq<Count<K>>): (r: seq<K>)
    ensures |r| == |d| && forall i :: 0 <= i < |r| ==> r[i] == d[i].key
  {
    seq(|d|, i requires 0 <= i < |d| => d[i].key)
  }

  predicate Distinct<K(==)>(ks: seq<K>) { forall i, j :: 0 <= i < j < |ks| ==> ks[i] != ks[j] }

  lemma {:induction false} BumpCounts<K>(d: seq<Count<K>>, k: K)
    ensures Total(Bump(d, k)) == Total(d) + 1
    ensures forall x :: x in Keys(Bump(d, k)) <==> x in Keys(d) || x == k
  {
    var e := Bump(d, k);
    if |d| == 0 {
      assert Keys(e) == [k];
    } else if d[0].key == k {
      assert Keys(e) == Keys(d);
    } else {
      BumpCounts(d[1..], k);
      assert Keys(e) == [d[0].key] + Keys(Bump(d[1..], k)) && Keys(d) == [d[0].key] + Keys(d[1..]);
    }
  }

  /** Bumping a key adds one to its counter and leaves the others as they were. */
  lemma {:induction false} BumpGet<K>(d: seq<Count<K>>, k: K, x: K)
    ensures Get(Bump(d, k), x) == Get(d, x) + if x == k then 1 else 0
  {
    if |d| > 0 && d[0].key != k { BumpGet(d[1..], k, x); }
  }

  lemma {:induction false} BumpDistinct<K>(d: seq<Count<K>>, k: K)
    requires Distinct(Keys(d))
    ensures Distinct(Keys(Bump(d, k)))
  {
    if |d| > 0 && d[0].key != k {
      KeysCons(d);
      BumpDistinct(d[1..], k);
      BumpCounts(d[1..], k);
      DistinctCons(d[0], Bump(d[1..], k));
    } else if |d| > 0 {
      assert Keys(Bump(d, k)) == Keys(d);
    }
  }

  lemma DistinctCons<K>(c: Count<K>, rest: seq<Count<K>>)
    requires Distinct(Keys(rest)) && c.key !in Keys(rest)
    ensures Distinct(Keys([c] + rest))
  {
    assert Keys([c] + rest) == [c.key] + Keys(rest);
  }

  // What the counters show for a list of keys.
  function Shown<K(==)>(ks: seq<K>, d: seq<Count<K>>): nat {
    if |ks| == 0 then 0 else Get(d, ks[0]) + Shown(ks[1..], d)
  }

  lemma {:induction false} ShownSplits<K>(ks: seq<K>, c: Count<K>, rest: seq<Count<K>>)
    requires Distinct(ks) && c.key !in Keys(rest)
    ensures Shown(ks, [c] + rest) == Shown(ks, rest) + if c.key in ks then c.count else 0
  {
    if |ks| > 0 {
      assert ([c] + rest)[1..] == rest;
      ShownSplits(ks[1..], c, rest);
      if ks[0] == c.key { AbsentIsZero(rest, c.key); }
    }
  }

  lemma {:induction false} AbsentIsZero<K>(d: seq<Count<K>>, k: K)
    requires k !in Keys(d)
    ensures Get(d, k) == 0
  {
    if |d| > 0 {
      assert Keys(d)[0] == d[0].key && Keys(d)[1..] == Keys(d[1..]);
      AbsentIsZero(d[1..], k);
    }
  }

  lemma {:induction false} NothingShown<K>(ks: seq<K>)
    ensures Shown(ks, []) == 0
  {
    if |ks| > 0 { NothingShown(ks[1..]); }
  }

  lemma KeysCons<K>(d: seq<Count<K>>)
    requires |d| > 0 && Distinct(Keys(d))
    ensures Distinct(Keys(d[1..])) && d[0].key in Keys(d) && d[0].key !in Keys(d[1..])
    ensures forall k :: k in Keys(d[1..]) ==> k in Keys(d)
  {
    assert Keys(d)[0] == d[0].key && Keys(d[1..]) == Keys(d)[1..];
  }

  /** A list that names every key once shows every count once. */
  lemma {:induction false} ShownIsTotal<K>(ks: seq<K>, d: seq<Count<K>>)
    requires Distinct(ks) && Distinct(Keys(d)) && forall k :: k in Keys(d) ==> k in ks
    ensures Shown(ks, d) == Total(d)
  {
    if |d| == 0 {
      NothingShown(ks);
    } else {
      KeysCons(d);
      ShownSplits(ks, d[0], d[1..]);
      assert d == [d[0]] + d[1..];
      ShownIsTotal(ks, d[1..]);
    }
  }
}
