/** The skewed allocator of the demo-data script, in exact arithmetic: Zipf shares are rounded down, the
    remainder is handed out by largest fraction, and the buckets are shuffled by multiplication modulo
    their number. */
module Zipf {
  import opened Wrappers

  const MULTIPLIER: int := 2654435761

  // ----- shares -----

  function Weight(i: nat): (w: real)
    ensures w > 0.0
  {
    1.0 / (i + 1) as real
  }

  function WeightSum(n: nat): (s: real)
    ensures n > 0 ==> s > 0.0
    ensures s >= 0.0
  {
    if n == 0 then 0.0 else WeightSum(n - 1) + Weight(n - 1)
  }

  function Raw(total: int, n: nat, i: nat): real
    requires n > 0
  {
    total as real * Weight(i) / WeightSum(n)
  }

  function RawSum(total: int, n: nat, k: nat): real
    requires n > 0
  {
    if k == 0 then 0.0 else RawSum(total, n, k - 1) + Raw(total, n, k - 1)
  }

  lemma Distributes(u: real, a: real, b: real)
    ensures u * a + u * b == u * (a + b)
  {
  }

  lemma QuotientMoves(a: real, w: real, s: real)
    requires s > 0.0
    ensures a * w / s == (a / s) * w
  {
  }

  lemma Cancels(a: real, s: real)
    requires s > 0.0
    ensures (a / s) * s == a
  {
  }

  lemma {:induction false} SharesAreProportional(total: int, n: nat, k: nat, unit: real)
    requires n > 0 && forall i: nat :: Raw(total, n, i) == unit * Weight(i)
    ensures RawSum(total, n, k) == unit * WeightSum(k)
  {
    if k > 0 {
      SharesAreProportional(total, n, k - 1, unit);
      Distributes(unit, WeightSum(k - 1), Weight(k - 1));
    }
  }

  /** The exact shares sum to the total. */
  lemma SharesSum(total: int, n: nat)
    requires n > 0
    ensures RawSum(total, n, n) == total as real
  {
    var s := WeightSum(n);
    var unit := total as real / s;
    forall i: nat ensures Raw(total, n, i) == unit * Weight(i) { QuotientMoves(total as real, Weight(i), s); }
    SharesAreProportional(total, n, n, unit);
    Cancels(total as real, s);
  }

  // 1 + 1/2 + ... + 1/n
  function Harmonic(n: nat): (h: real)
    ensures n > 0 ==> h > 0.0
    ensures h >= 0.0
  {
    if n == 0 then 0.0 else Harmonic(n - 1) + 1.0 / n as real
  }

  lemma {:induction false} WeightsAreHarmonic(n: nat)
    ensures WeightSum(n) == Harmonic(n)
  {
    if n > 0 { WeightsAreHarmonic(n - 1); }
  }

  lemma NestedQuotient(a: real, x: real, h: real, q: real)
    requires x > 0.0 && h > 0.0 && q == a * (1.0 / x) / h
    ensures x * h > 0.0 && q == a / (x * h) && q * x == a / h
  {
    Cancels(a * (1.0 / x), h);
    Cancels(1.0, x);
    assert q * h == a * (1.0 / x);
    assert q * (x * h) == (q * h) * x == a * ((1.0 / x) * x) == a;
    Cancels(a, x * h);
    assert (q * x) * h == a;
    Cancels(a, h);
  }

  /** The share of the i-th bucket is the total divided by i + 1 and by the harmonic sum: i + 1 times as
      much goes to the first bucket. */
  lemma ShareIsZipf(total: int, n: nat, i: nat)
    requires n > 0
    ensures (i + 1) as real * Harmonic(n) > 0.0
    ensures Raw(total, n, i) == total as real / ((i + 1) as real * Harmonic(n))
    ensures Raw(total, n, i) * (i + 1) as real == Raw(total, n, 0)
  {
    WeightsAreHarmonic(n);
    NestedQuotient(total as real, (i + 1) as real, Harmonic(n), Raw(total, n, i));
    NestedQuotient(total as real, 1.0, Harmonic(n), Raw(total, n, 0));
  }

  lemma LaterShareSmaller(total: int, n: nat, i: nat, j: nat)
    requires total > 0 && n > 0 && i < j
    ensures Raw(total, n, j) <= Raw(total, n, i)
  {
    ShareNotNegative(total, n, j);
    ShareIsZipf(total, n, i);
    ShareIsZipf(total, n, j);
    LargerFactor(Raw(total, n, i), (i + 1) as real, Raw(total, n, j), (j + 1) as real);
  }

  lemma LargerFactor(p: real, x: real, q: real, y: real)
    requires p * x == q * y && 0.0 < x < y && q >= 0.0
    ensures q <= p
  {
    assert q * x <= q * y;
    assert (p - q) * x == p * x - q * x;
  }

  function Sum(xs: seq<int>): int { if |xs| == 0 then 0 else Sum(xs[..|xs| - 1]) + xs[|xs| - 1] }

  function Floors(total: int, n: nat, k: nat): (r: seq<int>)
    requires n > 0
    ensures |r| == k && forall i :: 0 <= i < k ==> r[i] == Raw(total, n, i).Floor
  {
    if k == 0 then [] else Floors(total, n, k - 1) + [Raw(total, n, k - 1).Floor]
  }

  /** Rounding down loses less than one per bucket. */
  lemma {:induction false} FloorsLoseLittle(total: int, n: nat, k: nat)
    requires n > 0
    ensures Sum(Floors(total, n, k)) as real <= RawSum(total, n, k)
    ensures k > 0 ==> RawSum(total, n, k) < Sum(Floors(total, n, k)) as real + k as real
  {
    if k > 0 {
      FloorsLoseLittle(total, n, k - 1);
      assert Floors(total, n, k)[..k - 1] == Floors(total, n, k - 1);
    }
  }

  lemma DeficitBelowBuckets(total: int, n: nat)
    requires n > 0
    ensures 0 <= total - Sum(Floors(total, n, n)) < n
  {
    SharesSum(total, n);
    FloorsLoseLittle(total, n, n);
  }

  function Min(a: int, b: int): int { if a < b then a else b }

  function Capped(xs: seq<int>, cap: Option<int>): (r: seq<int>)
    ensures |r| == |xs| && forall i :: 0 <= i < |r| ==> r[i] == if cap.Some? then Min(xs[i], cap.value) else xs[i]
  {
    if cap.None? then xs else seq(|xs|, i requires 0 <= i < |xs| => Min(xs[i], cap.value))
  }

  // ----- handing out the remainder -----

  predicate Permutation(order: seq<nat>, n: nat) {
    && |order| == n && (forall j :: 0 <= j < n ==> order[j] < n)
    && (forall i, j :: 0 <= i < j < n ==> order[i] != order[j]) && (forall i: nat :: i < n ==> i in order)
  }

  // sorted(range(n), key=fraction, reverse=True), stably
  function Insert(order: seq<nat>, i: nat, key: nat -> real): seq<nat> {
    if |order| == 0 || key(order[|order| - 1]) >= key(i) then order + [i]
    else Insert(order[..|order| - 1], i, key) + [order[|order| - 1]]
  }

  function Order(n: nat, key: nat -> real): seq<nat> { if n == 0 then [] else Insert(Order(n - 1, key), n - 1, key) }

  // Larger keys first, and of equal keys the earlier bucket first.
  predicate Before(i: nat, j: nat, key: nat -> real) { key(i) > key(j) || (key(i) == key(j) && i < j) }
  predicate Ranked(order: seq<nat>, key: nat -> real) { forall i, j :: 0 <= i < j < |order| ==> Before(order[i], order[j], key) }

  lemma {:induction false} InsertAdds(order: seq<nat>, i: nat, key: nat -> real)
    ensures |Insert(order, i, key)| == |order| + 1
    ensures forall x :: x in Insert(order, i, key) <==> x in order || x == i
  {
    if |order| > 0 && key(order[|order| - 1]) < key(i) {
      InsertAdds(order[..|order| - 1], i, key);
      assert order == order[..|order| - 1] + [order[|order| - 1]];
    }
  }

  lemma {:induction false} InsertDistinct(order: seq<nat>, i: nat, key: nat -> real)
    requires i !in order && forall a, b :: 0 <= a < b < |order| ==> order[a] != order[b]
    ensures var r := Insert(order, i, key); forall a, b :: 0 <= a < b < |r| ==> r[a] != r[b]
  {
    if |order| > 0 && key(order[|order| - 1]) < key(i) {
      InsertDistinct(order[..|order| - 1], i, key);
      InsertAdds(order[..|order| - 1], i, key);
      var rest, last := Insert(order[..|order| - 1], i, key), order[|order| - 1];
      assert last !in order[..|order| - 1];
      assert last !in rest;
    }
  }

  lemma {:induction false} InsertRanks(order: seq<nat>, i: nat, key: nat -> real)
    requires Ranked(order, key) && forall a :: 0 <= a < |order| ==> order[a] < i
    ensures Ranked(Insert(order, i, key), key)
  {
    if |order| > 0 && key(order[|order| - 1]) < key(i) {
      var init, last := order[..|order| - 1], order[|order| - 1];
      InsertRanks(init, i, key);
      InsertAdds(init, i, key);
      var rest := Insert(init, i, key);
      forall a | 0 <= a < |rest| ensures Before(rest[a], last, key) {
        assert rest[a] in rest;
        if rest[a] != i { var b :| 0 <= b < |init| && init[b] == rest[a]; }
      }
    }
  }

  lemma {:induction false} OrderSorts(n: nat, key: nat -> real)
    ensures Permutation(Order(n, key), n) && Ranked(Order(n, key), key)
  {
    if n > 0 {
      var before := Order(n - 1, key);
      OrderSorts(n - 1, key);
      InsertRanks(before, n - 1, key);
      InsertPermutes(before, Insert(before, n - 1, key), n - 1, key);
    }
  }

  lemma InsertPermutes(before: seq<nat>, r: seq<nat>, i: nat, key: nat -> real)
    requires Permutation(before, i) && r == Insert(before, i, key)
    ensures Permutation(r, i + 1)
  {
    InsertAdds(before, i, key);
    InsertDistinct(before, i, key);
    forall j | 0 <= j < |r| ensures r[j] < i + 1 { assert r[j] in r; }
    forall k: nat | k < i + 1 ensures k in r { assert k == i || k in before; }
  }

  // How often the loop has come to bucket i after idx turns.
  function Visits(order: seq<nat>, idx: nat, i: nat): nat
    requires |order| > 0
  {
    if idx == 0 then 0 else Visits(order, idx - 1, i) + if order[(idx - 1) % |order|] == i then 1 else 0
  }

  lemma Multiples(d: int, n: nat)
    ensures d >= 1 ==> d * n >= n
    ensures d <= -1 ==> d * n + n <= 0
  {
  }

  lemma DivMod(x: int, n: nat, q: int, r: nat)
    requires n > 0 && x == q * n + r && r < n
    ensures x / n == q && x % n == r
  {
    var d := x / n - q;
    assert d * n == (x / n) * n - q * n == r - x % n;
    Multiples(d, n);
  }

  lemma OneTurn(order: seq<nat>, q: nat, r: nat, i: nat, p: nat)
    requires Permutation(order, |order|) && p < |order| && order[p] == i && r < |order|
    ensures Visits(order, q * |order| + r + 1, i) == Visits(order, q * |order| + r, i) + if p == r then 1 else 0
  {
    DivMod(q * |order| + r, |order|, q, r);
    OnlyPlace(order, r, i, p);
  }

  // Bucket i stands at place p of the order: once a round, and once more when the round has passed p.
  lemma {:induction false} VisitsByRounds(order: seq<nat>, q: nat, r: nat, i: nat, p: nat)
    requires Permutation(order, |order|) && p < |order| && order[p] == i && r <= |order|
    ensures Visits(order, q * |order| + r, i) == q + if p < r then 1 else 0
    decreases q, r
  {
    if r > 0 {
      VisitsByRounds(order, q, r - 1, i, p);
      OneTurn(order, q, r - 1, i, p);
    } else if q > 0 {
      VisitsByRounds(order, q - 1, |order|, i, p);
      assert (q - 1) * |order| + |order| == q * |order|;
    }
  }

  lemma OnlyPlace(order: seq<nat>, j: nat, i: nat, p: nat)
    requires Permutation(order, |order|) && p < |order| && j < |order| && order[p] == i
    ensures order[j] == i <==> j == p
  {
  }

  /** In four rounds every bucket is reached four times, and before that at most four times. */
  lemma FourRounds(order: seq<nat>, idx: nat, i: nat)
    requires Permutation(order, |order|) && i < |order| && idx <= 4 * |order|
    ensures Visits(order, idx, i) <= 4 && (idx == 4 * |order| ==> Visits(order, idx, i) == 4)
  {
    assert i in order;
    var p :| 0 <= p < |order| && order[p] == i;
    VisitsByRounds(order, 4, 0, i, p);
    VisitsGrow(order, idx, 4 * |order|, i);
  }

  lemma {:induction false} VisitsGrow(order: seq<nat>, a: nat, b: nat, i: nat)
    requires |order| > 0 && a <= b
    ensures Visits(order, a, i) <= Visits(order, b, i)
  {
    if a < b { VisitsGrow(order, a, b - 1, i); }
  }

  // What a bucket holds after being reached v times below its cap.
  function Topped(count: int, cap: Option<int>, v: nat): int {
    if cap.Some? then Min(cap.value, count + v) else count + v
  }

  // Buckets after idx turns of the loop, none of which found the deficit cleared.
  ghost predicate HandedOut(counts: seq<int>, start: seq<int>, cap: Option<int>, order: seq<nat>, idx: nat)
    requires |order| > 0
  {
    |counts| == |start| == |order| && forall i :: 0 <= i < |counts| ==> counts[i] == Topped(start[i], cap, Visits(order, idx, i))
  }

  // The room the loop can use: four places in a bucket, fewer if its cap is nearer.
  function Room(start: seq<int>, cap: int): int {
    if |start| == 0 then 0 else Room(start[..|start| - 1], cap) + Min(4, cap - start[|start| - 1])
  }

  lemma {:induction false} SumUpdate(xs: seq<int>, i: nat, v: int)
    requires i < |xs|
    ensures Sum(xs[i := v]) == Sum(xs) - xs[i] + v
  {
    var last := |xs| - 1;
    if i < last {
      assert xs[i := v][..last] == xs[..last][i := v];
      SumUpdate(xs[..last], i, v);
    } else {
      assert xs[i := v][..last] == xs[..last];
    }
  }

  // One more in bucket i, unless it is full.
  function Bump(counts: seq<int>, i: nat, cap: Option<int>): seq<int>
    requires i < |counts|
  {
    if cap.None? || counts[i] < cap.value then counts[i := counts[i] + 1] else counts
  }

  lemma Turn(counts: seq<int>, start: seq<int>, cap: Option<int>, order: seq<nat>, idx: nat)
    requires |order| > 0 && Permutation(order, |order|) && HandedOut(counts, start, cap, order, idx)
    requires cap.Some? ==> forall i :: 0 <= i < |start| ==> start[i] <= cap.value
    ensures HandedOut(Bump(counts, order[idx % |order|], cap), start, cap, order, idx + 1)
  {
    var i := order[idx % |order|];
    var next := Bump(counts, i, cap);
    forall k | 0 <= k < |next| ensures next[k] == Topped(start[k], cap, Visits(order, idx + 1, k)) {
      assert Visits(order, idx + 1, k) == Visits(order, idx, k) + if i == k then 1 else 0;
    }
  }

  // The loop's invariant.
  ghost predicate Handing(counts: seq<int>, start: seq<int>, cap: Option<int>, order: seq<nat>, idx: nat, deficit: int, total: int)
    requires |order| > 0
  {
    && 0 <= deficit == total - Sum(counts) && idx <= 4 * |order| && HandedOut(counts, start, cap, order, idx)
    && (cap.None? ==> deficit + idx < |order|)
  }

  lemma TurnHands(counts: seq<int>, start: seq<int>, cap: Option<int>, order: seq<nat>, idx: nat, deficit: int, total: int)
    requires |order| > 0 && Permutation(order, |order|) && Handing(counts, start, cap, order, idx, deficit, total)
    requires cap.Some? ==> forall i :: 0 <= i < |start| ==> start[i] <= cap.value
    requires deficit > 0 && idx < 4 * |order|
    ensures var i := order[idx % |order|];
      Handing(Bump(counts, i, cap), start, cap, order, idx + 1, if cap.None? || counts[i] < cap.value then deficit - 1 else deficit, total)
  {
    var i := order[idx % |order|];
    Turn(counts, start, cap, order, idx);
    SumUpdate(counts, i, counts[i] + 1);
  }

  lemma {:induction false} SumsBounded(counts: seq<int>, start: seq<int>, cap: int)
    requires |counts| == |start| && forall i :: 0 <= i < |counts| ==> counts[i] <= start[i] + Min(4, cap - start[i])
    ensures Sum(counts) <= Sum(start) + Room(start, cap)
    ensures (forall i :: 0 <= i < |counts| ==> counts[i] == start[i] + Min(4, cap - start[i])) ==> Sum(counts) == Sum(start) + Room(start, cap)
  {
    if |counts| > 0 { SumsBounded(counts[..|counts| - 1], start[..|start| - 1], cap); }
  }

  // The state the loop leaves: the deficit is cleared, or four rounds are over.
  lemma Done(counts: seq<int>, start: seq<int>, cap: int, order: seq<nat>, idx: nat, deficit: int)
    requires |order| > 0 && Permutation(order, |order|) && HandedOut(counts, start, Some(cap), order, idx) && idx <= 4 * |order|
    requires forall i :: 0 <= i < |start| ==> start[i] <= cap
    requires deficit >= 0 && (deficit == 0 || idx == 4 * |order|)
    ensures forall i :: 0 <= i < |counts| ==> counts[i] <= cap
    ensures Sum(counts) - Sum(start) <= Room(start, cap)
    ensures deficit > 0 ==> Sum(counts) - Sum(start) == Room(start, cap)
  {
    forall i | 0 <= i < |counts|
      ensures counts[i] <= start[i] + Min(4, cap - start[i])
      ensures deficit > 0 ==> counts[i] == start[i] + Min(4, cap - start[i])
    {
      FourRounds(order, idx, i);
    }
    SumsBounded(counts, start, cap);
  }

  lemma {:induction false} CappedSum(xs: seq<int>, cap: Option<int>)
    ensures Sum(Capped(xs, cap)) <= Sum(xs)
  {
    if |xs| > 0 {
      CappedSum(xs[..|xs| - 1], cap);
      assert Capped(xs, cap)[..|xs| - 1] == Capped(xs[..|xs| - 1], cap);
    }
  }

  // The counts before the loop.
  function Start(total: int, n: nat, cap: Option<int>): seq<int>
    requires n > 0
  {
    Capped(Floors(total, n, n), cap)
  }

  lemma ShareNotNegative(total: int, n: nat, i: nat)
    requires total > 0 && n > 0
    ensures Raw(total, n, i) >= 0.0
  {
    ProductNotNegative(total as real, Weight(i), WeightSum(n));
  }

  lemma ProductNotNegative(a: real, w: real, s: real)
    requires a > 0.0 && w > 0.0 && s > 0.0
    ensures a * w / s >= 0.0
  {
  }

  lemma StartNotNegative(total: int, n: nat, cap: Option<int>)
    requires total > 0 && n > 0 && (cap.None? || cap.value >= 0)
    ensures forall i :: 0 <= i < n ==> Start(total, n, cap)[i] >= 0
  {
    forall i | 0 <= i < n ensures Raw(total, n, i).Floor >= 0 { ShareNotNegative(total, n, i); }
  }

  lemma FewVisits(counts: seq<int>, start: seq<int>, cap: Option<int>, order: seq<nat>, idx: nat)
    requires |order| > 0 && Permutation(order, |order|) && HandedOut(counts, start, cap, order, idx) && idx <= 4 * |order|
    requires cap.Some? ==> forall i :: 0 <= i < |start| ==> start[i] <= cap.value
    ensures forall i :: 0 <= i < |counts| ==> start[i] <= counts[i] <= start[i] + 4
  {
    forall i | 0 <= i < |counts| ensures start[i] <= counts[i] <= start[i] + 4 { FourRounds(order, idx, i); }
  }

  // A loop that ends within its first round has reached the first idx buckets of the order, once each.
  lemma OneVisit(counts: seq<int>, start: seq<int>, order: seq<nat>, idx: nat)
    requires |order| > 0 && Permutation(order, |order|) && HandedOut(counts, start, None, order, idx) && idx <= |order|
    ensures forall p :: 0 <= p < |order| ==> counts[order[p]] == start[order[p]] + if p < idx then 1 else 0
  {
    forall p | 0 <= p < |order| ensures counts[order[p]] == start[order[p]] + if p < idx then 1 else 0 {
      VisitsByRounds(order, 0, idx, order[p], p);
    }
  }

  // The loop that hands out the remainder, four rounds at most.
  method HandOut(start: seq<int>, cap: Option<int>, order: seq<nat>, total: int) returns (counts: seq<int>)
    requires |start| == |order| > 0 && Permutation(order, |order|) && Sum(start) <= total
    requires if cap.Some? then forall i :: 0 <= i < |start| ==> start[i] <= cap.value else total - Sum(start) < |order|
    ensures |counts| == |start| && Sum(counts) <= total
    ensures cap.None? ==> Sum(counts) == total
    ensures cap.Some? ==> forall i :: 0 <= i < |counts| ==> counts[i] <= cap.value
    ensures cap.Some? ==> (Sum(counts) == total <==> total - Sum(start) <= Room(start, cap.value))
    ensures forall i :: 0 <= i < |counts| ==> start[i] <= counts[i] <= start[i] + 4
    ensures cap.None? ==> forall p :: 0 <= p < |order| ==> counts[order[p]] == start[order[p]] + if p < total - Sum(start) then 1 else 0
  {
    counts := start;
    var deficit, idx := total - Sum(counts), 0;
    while deficit > 0 && idx < |order| * 4
      invariant idx <= 4 * |order| && Handing(counts, start, cap, order, idx, deficit, total)
      invariant cap.None? ==> deficit + idx == total - Sum(start)
    {
      var i := order[idx % |order|];
      TurnHands(counts, start, cap, order, idx, deficit, total);
      if cap.None? || counts[i] < cap.value {
        counts := counts[i := counts[i] + 1];
        deficit := deficit - 1;
      }
      idx := idx + 1;
    }
    if cap.Some? { Done(counts, start, cap.value, order, idx, deficit); }
    FewVisits(counts, start, cap, order, idx);
    if cap.None? { OneVisit(counts, start, order, idx); }
  }

  // The exact share of bucket i, its whole part and the rest.
  function Share(total: int, n: nat, i: nat): (share: real)
    requires n > 0
    ensures share == Raw(total, n, i)
  {
    ShareIsZipf(total, n, i);
    total as real / ((i + 1) as real * Harmonic(n))
  }

  function Whole(total: int, n: nat, i: nat): int
    requires n > 0
  {
    Share(total, n, i).Floor
  }

  function Fraction(total: int, n: nat, i: nat): real
    requires n > 0
  {
    Share(total, n, i) - Whole(total, n, i) as real
  }

  // Every bucket holds its whole part, but for the cap, and at most four more; without a cap at most one
  // more, which goes to the larger fractions, of equal ones to the earlier bucket.
  ghost predicate Zipfian(counts: seq<int>, total: int, n: nat, cap: Option<int>)
    requires n > 0
  {
    && |counts| == n
    && (cap.Some? ==> forall i :: 0 <= i < n ==> Min(cap.value, Whole(total, n, i)) <= counts[i] <= Min(cap.value, Whole(total, n, i) + 4))
    && (cap.None? ==> forall i :: 0 <= i < n ==> Whole(total, n, i) <= counts[i] <= Whole(total, n, i) + 1)
    && (cap.None? ==> forall i, j :: 0 <= i < n && 0 <= j < n && counts[i] > Whole(total, n, i) && counts[j] == Whole(total, n, j) ==>
          Fraction(total, n, i) > Fraction(total, n, j) || (Fraction(total, n, i) == Fraction(total, n, j) && i < j))
    && (cap.None? ==> forall i, j :: 0 <= i < j < n ==> counts[j] <= counts[i] + 1)
  }

  lemma WholesOrdered(total: int, n: nat, i: nat, j: nat)
    requires total > 0 && n > 0 && i < j
    ensures Whole(total, n, j) <= Whole(total, n, i)
  {
    LaterShareSmaller(total, n, i, j);
    FloorsOrdered(Share(total, n, j), Share(total, n, i));
  }

  lemma FloorsOrdered(p: real, q: real)
    requires p <= q
    ensures p.Floor <= q.Floor
  {
  }

  lemma RemaindersRanked(counts: seq<int>, total: int, n: nat, order: seq<nat>, key: nat -> real, deficit: int)
    requires n > 0 && |counts| == n && Permutation(order, n) && Ranked(order, key)
    requires forall i: nat :: i < n ==> key(i) == Fraction(total, n, i)
    requires forall p :: 0 <= p < n ==> counts[order[p]] == Whole(total, n, order[p]) + if p < deficit then 1 else 0
    ensures forall i, j :: 0 <= i < n && 0 <= j < n && counts[i] > Whole(total, n, i) && counts[j] == Whole(total, n, j) ==>
      Fraction(total, n, i) > Fraction(total, n, j) || (Fraction(total, n, i) == Fraction(total, n, j) && i < j)
  {
    forall i, j | 0 <= i < n && 0 <= j < n && counts[i] > Whole(total, n, i) && counts[j] == Whole(total, n, j)
      ensures Fraction(total, n, i) > Fraction(total, n, j) || (Fraction(total, n, i) == Fraction(total, n, j) && i < j)
    {
      assert i in order && j in order;
      var p :| 0 <= p < n && order[p] == i;
      var q :| 0 <= q < n && order[q] == j;
      assert p < deficit <= q && Before(order[p], order[q], key);
    }
  }

  // What the loop leaves without a cap.
  lemma UncappedIsZipfian(counts: seq<int>, start: seq<int>, total: int, n: nat, order: seq<nat>, key: nat -> real, deficit: int)
    requires total > 0 && n > 0 && |counts| == |start| == n && Permutation(order, n) && Ranked(order, key)
    requires forall i: nat :: i < n ==> key(i) == Fraction(total, n, i) && start[i] == Whole(total, n, i)
    requires forall p :: 0 <= p < n ==> counts[order[p]] == start[order[p]] + if p < deficit then 1 else 0
    ensures Zipfian(counts, total, n, None)
  {
    forall i | 0 <= i < n ensures Whole(total, n, i) <= counts[i] <= Whole(total, n, i) + 1 {
      assert i in order;
      var p :| 0 <= p < n && order[p] == i;
    }
    RemaindersRanked(counts, total, n, order, key, deficit);
    forall i, j | 0 <= i < j < n ensures counts[j] <= counts[i] + 1 { WholesOrdered(total, n, i, j); }
  }

  lemma CappedIsZipfian(counts: seq<int>, start: seq<int>, total: int, n: nat, cap: int)
    requires n > 0 && |counts| == |start| == n
    requires forall i: nat :: i < n ==> start[i] == Min(Whole(total, n, i), cap) && start[i] <= counts[i] <= start[i] + 4 && counts[i] <= cap
    ensures Zipfian(counts, total, n, Some(cap))
  {
    forall i | 0 <= i < n ensures Min(cap, Whole(total, n, i)) <= counts[i] <= Min(cap, Whole(total, n, i) + 4) {
      assert start[i] == Min(Whole(total, n, i), cap);
    }
  }

  lemma LoopIsZipfian(counts: seq<int>, start: seq<int>, total: int, n: nat, cap: Option<int>,
                      order: seq<nat>, key: nat -> real, deficit: int)
    requires total > 0 && n > 0 && |counts| == n && start == Start(total, n, cap) && Permutation(order, n) && Ranked(order, key)
    requires forall i: nat :: i < n ==> key(i) == Fraction(total, n, i) && start[i] <= counts[i] <= start[i] + 4
    requires cap.Some? ==> forall i :: 0 <= i < n ==> counts[i] <= cap.value
    requires cap.None? ==> forall p :: 0 <= p < n ==> counts[order[p]] == start[order[p]] + if p < deficit then 1 else 0
    ensures Zipfian(counts, total, n, cap)
  {
    if cap.None? {
      UncappedIsZipfian(counts, start, total, n, order, key, deficit);
    } else {
      CappedIsZipfian(counts, start, total, n, cap.value);
    }
  }

  /** The allocation before the shuffle: the buckets hold their Zipf shares, rounded.  Without a cap they
      sum to the total; with one no bucket exceeds it, the sum never exceeds the total, and it is the total
      if and only if the deficit fits into four places per bucket. */
  method Allocate(total: int, n: nat, cap: Option<int>) returns (counts: seq<int>)
    requires total > 0 && n > 0
    ensures |counts| == n && Sum(counts) <= total
    ensures cap.None? ==> Sum(counts) == total
    ensures cap.Some? ==> forall i :: 0 <= i < n ==> counts[i] <= cap.value
    ensures cap.Some? ==> (Sum(counts) == total <==> total - Sum(Start(total, n, cap)) <= Room(Start(total, n, cap), cap.value))
    ensures cap.None? || cap.value >= 0 ==> forall i :: 0 <= i < n ==> counts[i] >= 0
    ensures Zipfian(counts, total, n, cap)
  {
    var start := Start(total, n, cap);
    if cap.None? || cap.value >= 0 { StartNotNegative(total, n, cap); }
    DeficitBelowBuckets(total, n);
    CappedSum(Floors(total, n, n), cap);
    var fraction := (i: nat) => Fraction(total, n, i);
    OrderSorts(n, fraction);
    counts := HandOut(start, cap, Order(n, fraction), total);
    LoopIsZipfian(counts, start, total, n, cap, Order(n, fraction), fraction, total - Sum(start));
  }

  /** The total is lost, for instance, whenever one bucket has to hold more than its cap. */
  lemma OneBucketLosesTotal(total: int, cap: nat)
    requires total > cap
    ensures Start(total, 1, Some(cap)) == [cap] && total - Sum(Start(total, 1, Some(cap))) > Room(Start(total, 1, Some(cap)), cap)
  {
    SharesSum(total, 1);
    assert RawSum(total, 1, 0) == 0.0 && RawSum(total, 1, 1) == Raw(total, 1, 0);
    assert [cap][..0] == [];
    assert Room([cap][..0], cap) == 0 && Sum([cap][..0]) == 0;
  }

  // ----- the shuffle -----

  function Slot(k: int, n: nat): nat
    requires n > 0
  {
    (k * MULTIPLIER) % n
  }

  function Gcd(a: nat, b: nat): nat
    decreases b
  {
    if b == 0 then a else Gcd(b, a % b)
  }

  ghost predicate Divides(d: int, x: int) { exists k :: Product(d, k) == x }
  function Product(d: int, k: int): int { d * k }

  lemma {:induction false} GcdDivides(a: nat, b: nat)
    ensures Divides(Gcd(a, b), a) && Divides(Gcd(a, b), b)
    decreases b
  {
    if b == 0 {
      assert Product(a, 1) == a && Product(a, 0) == 0;
    } else {
      GcdDivides(b, a % b);
      var g := Gcd(a, b);
      var x :| Product(g, x) == b;
      var y :| Product(g, y) == a % b;
      Combine(g, x, y, a / b);
      assert a == b * (a / b) + a % b;
      assert Product(g, x * (a / b) + y) == a;
    }
  }

  lemma Combine(g: int, x: int, y: int, q: int)
    ensures g * (x * q + y) == (g * x) * q + g * y
  {
    assert g * (x * q) == (g * x) * q;
  }

  // The extended Euclidean algorithm.
  lemma {:induction false} Bezout(a: nat, b: nat) returns (x: int, y: int)
    ensures a * x + b * y == Gcd(a, b)
    decreases b
  {
    if b == 0 {
      x, y := 1, 0;
    } else {
      var u, v := Bezout(b, a % b);
      x, y := v, u - (a / b) * v;
      var q := a / b;
      assert a == b * q + a % b;
      BezoutStep(b, q, a % b, u, v);
    }
  }

  lemma BezoutStep(b: int, q: int, r: int, u: int, v: int)
    ensures (b * q + r) * v + b * (u - q * v) == b * u + r * v
  {
    assert (b * q + r) * v == b * q * v + r * v;
    assert b * (u - q * v) == b * u - b * (q * v);
    assert b * q * v == b * (q * v);
  }

  ghost predicate SlotsDistinct(n: nat)
    requires n > 0
  {
    forall j, k :: 0 <= j < k < n ==> Slot(j, n) != Slot(k, n)
  }

  lemma SameSlot(j: int, k: int, n: nat)
    requires n > 0 && Slot(j, n) == Slot(k, n)
    ensures Divides(n, (k - j) * MULTIPLIER)
  {
    var a, b := j * MULTIPLIER, k * MULTIPLIER;
    assert a == (a / n) * n + a % n && b == (b / n) * n + b % n;
    SubProducts(b / n, a / n, n);
    assert b - a == (k - j) * MULTIPLIER;
    assert Product(n, b / n - a / n) == b - a;
  }

  lemma SubProducts(p: int, q: int, n: int)
    ensures n * (p - q) == p * n - q * n
  {
  }

  // Coprime to n, the multiplier cannot carry two places to one slot.
  lemma CoprimeKeepsApart(j: int, k: int, n: nat)
    requires 0 <= j < k < n && Gcd(n, MULTIPLIER) == 1
    ensures Slot(j, n) != Slot(k, n)
  {
    var x, y := Bezout(n, MULTIPLIER);
    var d := k - j;
    if Slot(j, n) == Slot(k, n) {
      SameSlot(j, k, n);
      var m :| Product(n, m) == d * MULTIPLIER;
      Expand(d, n, x, y, m);
      Multiples(d * x + m * y, n);
    }
  }

  lemma Expand(d: int, n: int, x: int, y: int, m: int)
    requires n * x + MULTIPLIER * y == 1 && n * m == d * MULTIPLIER
    ensures (d * x + m * y) * n == d
  {
    assert d == d * (n * x + MULTIPLIER * y) == d * (n * x) + d * (MULTIPLIER * y);
    assert d * (MULTIPLIER * y) == (d * MULTIPLIER) * y == (n * m) * y;
    assert d * (n * x) == (d * x) * n;
    assert (n * m) * y == (m * y) * n;
    assert (d * x + m * y) * n == (d * x) * n + (m * y) * n;
  }

  // A common factor brings some place back to slot 0.
  lemma FactorCollides(n: nat)
    requires n > 0 && Gcd(n, MULTIPLIER) != 1
    ensures !SlotsDistinct(n)
  {
    var g := Gcd(n, MULTIPLIER);
    GcdDivides(n, MULTIPLIER);
    var a :| Product(g, a) == n;
    var b :| Product(g, b) == MULTIPLIER;
    Factors(g, a, n);
    assert a * MULTIPLIER == a * (g * b) == (g * a) * b == b * n;
    DivMod(a * MULTIPLIER, n, b, 0);
    DivMod(0, n, 0, 0);
    assert Slot(0, n) == 0 == Slot(a, n);
  }

  lemma Factors(g: nat, a: int, n: nat)
    requires g * a == n > 0 && g != 1
    ensures 0 < a < n
  {
  }

  /** The shuffle is a permutation of the slots if and only if the number of buckets is coprime to the
      multiplier. */
  lemma ShuffleIsPermutationIff(n: nat)
    requires n > 0
    ensures SlotsDistinct(n) <==> Gcd(n, MULTIPLIER) == 1
  {
    if Gcd(n, MULTIPLIER) == 1 {
      forall j, k | 0 <= j < k < n ensures Slot(j, n) != Slot(k, n) { CoprimeKeepsApart(j, k, n); }
    } else {
      FactorCollides(n);
    }
  }

  lemma {:induction false} SumOfZeros(xs: seq<int>)
    requires forall i :: 0 <= i < |xs| ==> xs[i] == 0
    ensures Sum(xs) == 0
  {
    if |xs| > 0 { SumOfZeros(xs[..|xs| - 1]); }
  }

  // The array after the first k counts are put in their slots.
  ghost predicate Shuffled(a: seq<int>, counts: seq<int>, k: nat) {
    && |a| == |counts| > 0 && k <= |counts|
    && (forall j :: 0 <= j < k && (forall l :: j < l < k ==> Slot(l, |a|) != Slot(j, |a|)) ==> a[Slot(j, |a|)] == counts[j])
    && (forall t :: 0 <= t < |a| && (forall j :: 0 <= j < k ==> Slot(j, |a|) != t) ==> a[t] == 0)
  }

  lemma ShuffleOne(a: seq<int>, counts: seq<int>, k: nat)
    requires Shuffled(a, counts, k) && k < |counts|
    ensures Shuffled(a[Slot(k, |a|) := counts[k]], counts, k + 1)
  {
    var b := a[Slot(k, |a|) := counts[k]];
    forall j | 0 <= j < k + 1 && (forall l :: j < l < k + 1 ==> Slot(l, |b|) != Slot(j, |b|)) ensures b[Slot(j, |b|)] == counts[j] {
      if j < k { assert Slot(k, |b|) != Slot(j, |b|); }
    }
    forall t | 0 <= t < |b| && (forall j :: 0 <= j < k + 1 ==> Slot(j, |b|) != t) ensures b[t] == 0 {
      assert Slot(k, |b|) != t;
    }
  }

  // The last of the first k buckets whose slot is t.
  function LastIn(t: nat, n: nat, k: nat): (r: Option<nat>)
    requires n > 0
    ensures r.Some? ==> r.value < k && Slot(r.value, n) == t && forall l :: r.value < l < k ==> Slot(l, n) != t
    ensures r.None? ==> forall l :: 0 <= l < k ==> Slot(l, n) != t
  {
    if k == 0 then None else if Slot(k - 1, n) == t then Some(k - 1) else LastIn(t, n, k - 1)
  }

  // A slot holds the count of the last bucket that went there.
  lemma SlotHolds(a: seq<int>, counts: seq<int>, k: nat, t: nat)
    requires Shuffled(a, counts, k) && t < |a|
    ensures a[t] == if LastIn(t, |a|, k).Some? then counts[LastIn(t, |a|, k).value] else 0
  {
    if LastIn(t, |a|, k).Some? { assert a[Slot(LastIn(t, |a|, k).value, |a|)] == counts[LastIn(t, |a|, k).value]; }
  }

  predicate NotNegative(xs: seq<int>) { forall i :: 0 <= i < |xs| ==> xs[i] >= 0 }

  // Only zeros were overwritten.
  ghost predicate NothingLost(counts: seq<int>, k: nat) {
    |counts| > 0 && k <= |counts| && forall j, l :: 0 <= j < l < k && Slot(j, |counts|) == Slot(l, |counts|) ==> counts[j] == 0
  }

  lemma LostMore(a: seq<int>, counts: seq<int>, k: nat)
    requires Shuffled(a, counts, k) && k < |counts| && NotNegative(counts)
    ensures a[Slot(k, |a|)] >= 0
    ensures NothingLost(counts, k + 1) <==> NothingLost(counts, k) && a[Slot(k, |a|)] == 0
  {
    var n, t := |a|, Slot(k, |a|);
    SlotHolds(a, counts, k, t);
    if NothingLost(counts, k) && a[t] == 0 {
      forall j, l | 0 <= j < l < k + 1 && Slot(j, n) == Slot(l, n) ensures counts[j] == 0 {
        if l == k { assert j <= LastIn(t, n, k).value; }
      }
    }
  }

  // The sum of what is in the slots, against the sum of what went there.
  ghost predicate SumKept(a: seq<int>, counts: seq<int>, k: nat) {
    k <= |counts| && Sum(a) <= Sum(counts[..k]) && (Sum(a) == Sum(counts[..k]) <==> NothingLost(counts, k))
  }

  lemma SumKeptMore(a: seq<int>, counts: seq<int>, k: nat)
    requires Shuffled(a, counts, k) && k < |counts| && NotNegative(counts) && SumKept(a, counts, k)
    ensures SumKept(a[Slot(k, |a|) := counts[k]], counts, k + 1)
  {
    LostMore(a, counts, k);
    SumUpdate(a, Slot(k, |a|), counts[k]);
    SumPrefix(counts, k);
    SumKeptBy(a, a[Slot(k, |a|) := counts[k]], counts, k, a[Slot(k, |a|)]);
  }

  lemma SumPrefix(xs: seq<int>, k: nat)
    requires k < |xs|
    ensures Sum(xs[..k + 1]) == Sum(xs[..k]) + xs[k]
  {
    assert xs[..k + 1][..k] == xs[..k];
  }

  lemma SumKeptBy(a: seq<int>, b: seq<int>, counts: seq<int>, k: nat, overwritten: nat)
    requires k < |counts| && SumKept(a, counts, k) && Sum(b) == Sum(a) - overwritten + counts[k]
    requires Sum(counts[..k + 1]) == Sum(counts[..k]) + counts[k]
    requires NothingLost(counts, k + 1) <==> NothingLost(counts, k) && overwritten == 0
    ensures SumKept(b, counts, k + 1)
  {
  }

  // The slot a count goes to is still empty, and filling it adds the count.
  lemma FreshSlot(a: seq<int>, counts: seq<int>, k: nat)
    requires Shuffled(a, counts, k) && k < |counts| && SlotsDistinct(|counts|)
    ensures a[Slot(k, |a|)] == 0
    ensures Sum(a[Slot(k, |a|) := counts[k]]) == Sum(a) + counts[k]
    ensures Sum(counts[..k + 1]) == Sum(counts[..k]) + counts[k]
  {
    SumUpdate(a, Slot(k, |a|), counts[k]);
    SumPrefix(counts, k);
  }

  ghost predicate Placed(a: seq<int>, counts: seq<int>, k: nat) {
    && Shuffled(a, counts, k) && (SlotsDistinct(|counts|) ==> Sum(a) == Sum(counts[..k]))
    && (NotNegative(counts) ==> SumKept(a, counts, k))
  }

  lemma PlaceOne(a: seq<int>, b: seq<int>, counts: seq<int>, k: nat)
    requires Placed(a, counts, k) && k < |counts| && b == a[Slot(k, |a|) := counts[k]]
    ensures Placed(b, counts, k + 1)
  {
    ShuffleOne(a, counts, k);
    if SlotsDistinct(|counts|) { FreshSlot(a, counts, k); }
    if NotNegative(counts) { SumKeptMore(a, counts, k); }
  }

  lemma AllPlaced(r: seq<int>, counts: seq<int>)
    requires Placed(r, counts, |counts|)
    ensures Gcd(|counts|, MULTIPLIER) == 1 ==> Sum(r) == Sum(counts) && forall k :: 0 <= k < |counts| ==> r[Slot(k, |counts|)] == counts[k]
  {
    ShuffleIsPermutationIff(|counts|);
    assert counts[..|counts|] == counts;
    if SlotsDistinct(|counts|) {
      forall k | 0 <= k < |counts| ensures r[Slot(k, |counts|)] == counts[k] {
        assert forall l :: k < l < |counts| ==> Slot(l, |counts|) != Slot(k, |counts|);
      }
    }
  }

  /** Every count goes to its slot, the last one wins, and slots no count goes to stay 0.  If the number of
      buckets is coprime to the multiplier each slot gets exactly one count and the sum is kept; for any
      number, counts not below zero keep their sum if and only if only zeros are overwritten. */
  method Shuffle(counts: seq<int>) returns (r: seq<int>)
    requires |counts| > 0
    ensures Shuffled(r, counts, |counts|)
    ensures Gcd(|counts|, MULTIPLIER) == 1 ==> Sum(r) == Sum(counts) && forall k :: 0 <= k < |counts| ==> r[Slot(k, |counts|)] == counts[k]
    ensures NotNegative(counts) ==> SumKept(r, counts, |counts|)
  {
    var n := |counts|;
    var interleaved := new int[n](_ => 0);
    SumOfZeros(interleaved[..]);
    var k := 0;
    while k < n
      invariant k <= n && Placed(interleaved[..], counts, k)
    {
      ghost var before := interleaved[..];
      interleaved[Slot(k, n)] := counts[k];
      PlaceOne(before, interleaved[..], counts, k);
      k := k + 1;
    }
    r := interleaved[..];
    AllPlaced(r, counts);
  }

  /** So buckets do get lost when their number is not coprime to the multiplier: positive counts then sum to
      less after the shuffle. */
  lemma SharedSlotLoses(r: seq<int>, counts: seq<int>)
    requires |counts| > 0 && SumKept(r, counts, |counts|) && forall i :: 0 <= i < |counts| ==> counts[i] > 0
    ensures Sum(r) == Sum(counts) <==> Gcd(|counts|, MULTIPLIER) == 1
  {
    ShuffleIsPermutationIff(|counts|);
    assert counts[..|counts|] == counts;
    if !SlotsDistinct(|counts|) {
      var j, k :| 0 <= j < k < |counts| && Slot(j, |counts|) == Slot(k, |counts|);
      assert counts[j] > 0;
    }
  }

  lemma ShuffledBelow(r: seq<int>, counts: seq<int>, cap: int)
    requires Shuffled(r, counts, |counts|) && cap >= 0 && forall i :: 0 <= i < |counts| ==> counts[i] <= cap
    ensures forall t :: 0 <= t < |r| ==> r[t] <= cap
  {
    forall t | 0 <= t < |r| ensures r[t] <= cap { SlotHolds(r, counts, |counts|, t); }
  }

  /** zipf_distribution.  For a positive number of buckets coprime to the multiplier: without a cap the
      buckets sum exactly to the total; with a cap the sum is at most the total, and equal to it if and only
      if the deficit fits into four places per bucket; and the slot of bucket k holds the whole part of
      total / ((k + 1) * H), or one more, but for the cap.  For any number of buckets a nonnegative cap bounds
      every bucket, and the sum is at most the total. */
  method ZipfDistribution(total: int, n: int, cap: Option<int>) returns (r: seq<int>)
    ensures |r| == if n < 0 then 0 else n
    ensures n <= 0 || total <= 0 ==> forall i :: 0 <= i < |r| ==> r[i] == 0
    ensures n > 0 && total > 0 && Gcd(n, MULTIPLIER) == 1 && cap.None? ==> Sum(r) == total
    ensures n > 0 && total > 0 && Gcd(n, MULTIPLIER) == 1 && cap.Some? ==> Sum(r) <= total
    ensures n > 0 && total > 0 && Gcd(n, MULTIPLIER) == 1 && cap.Some? ==>
      (Sum(r) == total <==> total - Sum(Start(total, n, cap)) <= Room(Start(total, n, cap), cap.value))
    ensures n > 0 && total > 0 && Gcd(n, MULTIPLIER) == 1 ==>
      exists counts :: Zipfian(counts, total, n, cap) && forall k :: 0 <= k < n ==> r[Slot(k, n)] == counts[k]
    ensures total > 0 && (cap.None? || cap.value >= 0) ==> Sum(r) <= total
    ensures cap.Some? && cap.value >= 0 ==> forall i :: 0 <= i < |r| ==> r[i] <= cap.value
  {
    if n <= 0 || total <= 0 {
      r := seq(if n < 0 then 0 else n, _ => 0);
      SumOfZeros(r);
      return;
    }
    var counts := Allocate(total, n, cap);
    r := Shuffle(counts);
    ShuffleIsPermutationIff(n);
    assert counts[..n] == counts;
    if cap.Some? && cap.value >= 0 { ShuffledBelow(r, counts, cap.value); }
  }
}
