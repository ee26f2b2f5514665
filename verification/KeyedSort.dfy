/** A stable sort of keyed rows, standing for Python's `sorted` and `list.sort` with a key function. */
module KeyedSort {
  datatype Keyed<T> = Keyed(key: nat, value: T)

  function Payloads<T>(xs: seq<Keyed<T>>): (r: seq<T>)
    ensures |r| == |xs| && forall i :: 0 <= i < |r| ==> r[i] == xs[i].value
  {
    seq(|xs|, i requires 0 <= i < |xs| => xs[i].value)
  }

  function InsertKeyed<T>(ys: seq<Keyed<T>>, x: Keyed<T>): seq<Keyed<T>> {
    if |ys| == 0 || ys[|ys| - 1].key <= x.key then ys + [x] else InsertKeyed(ys[..|ys| - 1], x) + [ys[|ys| - 1]]
  }

  function SortKeyed<T>(xs: seq<Keyed<T>>): seq<Keyed<T>> {
    if |xs| == 0 then [] else InsertKeyed(SortKeyed(xs[..|xs| - 1]), xs[|xs| - 1])
  }

  predicate Ascending<T>(xs: seq<Keyed<T>>) { forall i, j :: 0 <= i < j < |xs| ==> xs[i].key <= xs[j].key }
  predicate Increasing<T>(xs: seq<Keyed<T>>) { forall i, j :: 0 <= i < j < |xs| ==> xs[i].key < xs[j].key }

  lemma {:induction false} InsertAdds<T>(ys: seq<Keyed<T>>, x: Keyed<T>)
    ensures multiset(InsertKeyed(ys, x)) == multiset(ys) + multiset{x}
  {
    if |ys| > 0 && ys[|ys| - 1].key > x.key {
      assert ys == ys[..|ys| - 1] + [ys[|ys| - 1]];
      InsertAdds(ys[..|ys| - 1], x);
    }
  }

  predicate AtMost<T>(xs: seq<Keyed<T>>, m: nat) { forall i :: 0 <= i < |xs| ==> xs[i].key <= m }

  lemma {:induction false} InsertAscends<T>(ys: seq<Keyed<T>>, x: Keyed<T>, m: nat)
    requires Ascending(ys) && AtMost(ys, m) && x.key <= m
    ensures Ascending(InsertKeyed(ys, x)) && AtMost(InsertKeyed(ys, x), m)
  {
    if |ys| > 0 && ys[|ys| - 1].key > x.key {
      InsertAscends(ys[..|ys| - 1], x, ys[|ys| - 1].key);
    }
  }

  lemma {:induction false} SortSorts<T>(xs: seq<Keyed<T>>, m: nat)
    requires AtMost(xs, m)
    ensures Ascending(SortKeyed(xs)) && AtMost(SortKeyed(xs), m) && multiset(SortKeyed(xs)) == multiset(xs)
  {
    if |xs| > 0 {
      assert xs == xs[..|xs| - 1] + [xs[|xs| - 1]];
      SortSorts(xs[..|xs| - 1], m);
      InsertAdds(SortKeyed(xs[..|xs| - 1]), xs[|xs| - 1]);
      InsertAscends(SortKeyed(xs[..|xs| - 1]), xs[|xs| - 1], m);
    }
  }

  lemma {:induction false} SortOfSorted<T>(xs: seq<Keyed<T>>)
    requires Ascending(xs)
    ensures SortKeyed(xs) == xs
  {
    if |xs| > 0 {
      SortOfSorted(xs[..|xs| - 1]);
      assert xs == xs[..|xs| - 1] + [xs[|xs| - 1]];
    }
  }

  lemma LastIsLargest<T>(a: seq<Keyed<T>>, b: seq<Keyed<T>>)
    requires Ascending(a) && Increasing(b) && multiset(a) == multiset(b) && |a| > 0 && |b| > 0
    ensures b[|b| - 1] == a[|a| - 1]
  {
    var y, z := b[|b| - 1], a[|a| - 1];
    assert y in multiset(a) && z in multiset(b);
    var i :| 0 <= i < |a| && a[i] == y;
    var j :| 0 <= j < |b| && b[j] == z;
  }

  lemma LastRemoved<T>(a: seq<T>)
    requires |a| > 0
    ensures multiset(a[..|a| - 1]) == multiset(a) - multiset{a[|a| - 1]}
  {
    assert a == a[..|a| - 1] + [a[|a| - 1]];
  }

  lemma SameSize<T>(a: seq<T>, b: seq<T>)
    requires multiset(a) == multiset(b)
    ensures |a| == |b|
  {
    assert |multiset(a)| == |a| && |multiset(b)| == |b|;
  }

  // A sorted sequence with distinct keys is determined by its elements.
  lemma {:induction false} SortedUnique<T>(a: seq<Keyed<T>>, b: seq<Keyed<T>>)
    requires Ascending(a) && Increasing(b) && multiset(a) == multiset(b)
    ensures a == b
  {
    SameSize(a, b);
    if |b| > 0 {
      LastIsLargest(a, b);
      LastRemoved(a);
      LastRemoved(b);
      SortedUnique(a[..|a| - 1], b[..|b| - 1]);
      assert a == a[..|a| - 1] + [a[|a| - 1]] && b == b[..|b| - 1] + [b[|b| - 1]];
    }
  }

  /** Sorting rows whose keys are those of an increasing sequence gives that sequence. */
  lemma SortGives<T>(xs: seq<Keyed<T>>, b: seq<Keyed<T>>, m: nat)
    requires AtMost(xs, m) && Increasing(b) && multiset(xs) == multiset(b)
    ensures SortKeyed(xs) == b
  {
    SortSorts(xs, m);
    SortedUnique(SortKeyed(xs), b);
  }

  lemma TwiceInMultiset<T>(xs: seq<T>, i: nat, j: nat)
    requires i < j < |xs| && xs[i] == xs[j]
    ensures multiset(xs)[xs[i]] >= 2
  {
    assert xs == xs[..i] + [xs[i]] + xs[i + 1..j] + [xs[j]] + xs[j + 1..];
  }

  lemma {:induction false} OnceInMultiset<T>(xs: seq<T>, x: T)
    requires forall i, j :: 0 <= i < j < |xs| ==> xs[i] != xs[j]
    ensures multiset(xs)[x] <= 1
  {
    if |xs| > 0 {
      OnceInMultiset(xs[1..], x);
      assert xs == [xs[0]] + xs[1..];
      if xs[0] == x { assert x !in xs[1..]; }
    }
  }
}
