/** Overlaying mount usage from `df` on the scanned root: what `df` knows and the scan missed is added as
    `[unscanned usage]` children, and no byte is counted twice. */
module MountOverlay {
  datatype Mount = Mount(path: string, used: int, isVirtual: bool)
  datatype Used = Used(path: string, size: int)

  datatype Node = Node(path: string, size: int, isDirectory: bool, children: seq<Node>, hasHiddenChildren: bool)

  function Max(a: int, b: int): int { if a < b then b else a }

  // ----- insertion-ordered dictionaries of byte counts -----

  // d[path] = d.get(path, 0) + size
  function AddUsed(d: seq<Used>, path: string, size: int): seq<Used> {
    if |d| == 0 then [Used(path, size)]
    else if d[0].path == path then [Used(path, d[0].size + size)] + d[1..]
    else [d[0]] + AddUsed(d[1..], path, size)
  }

  predicate Has(d: seq<Used>, path: string) { exists i :: 0 <= i < |d| && d[i].path == path }
  predicate Distinct(d: seq<Used>) { forall i, j :: 0 <= i < j < |d| ==> d[i].path != d[j].path }

  function SumWhere(d: seq<Used>, where: string -> bool): int {
    if |d| == 0 then 0 else (if where(d[0].path) then d[0].size else 0) + SumWhere(d[1..], where)
  }

  lemma {:induction false} AddUsedAdds(d: seq<Used>, path: string, size: int, where: string -> bool)
    ensures SumWhere(AddUsed(d, path, size), where) == SumWhere(d, where) + if where(path) then size else 0
  {
    if |d| > 0 && d[0].path != path { AddUsedAdds(d[1..], path, size, where); }
  }

  lemma {:induction false} AddUsedHas(d: seq<Used>, path: string, size: int, other: string)
    ensures Has(AddUsed(d, path, size), other) <==> Has(d, other) || other == path
  {
    var e := AddUsed(d, path, size);
    if |d| > 0 && d[0].path != path {
      AddUsedHas(d[1..], path, size, other);
      HasCons(d, other);
      HasCons(e, other);
    } else {
      HasCons(e, other);
      if |d| > 0 { HasCons(d, other); }
    }
  }

  lemma HasCons(d: seq<Used>, path: string)
    requires |d| > 0
    ensures Has(d, path) <==> d[0].path == path || Has(d[1..], path)
  {
    if Has(d, path) {
      var i :| 0 <= i < |d| && d[i].path == path;
      if i > 0 { assert d[1..][i - 1].path == path; }
    }
    if Has(d[1..], path) {
      var i :| 0 <= i < |d[1..]| && d[1..][i].path == path;
      assert d[i + 1].path == path;
    }
  }

  lemma {:induction false} AddUsedDistinct(d: seq<Used>, path: string, size: int)
    requires Distinct(d)
    ensures Distinct(AddUsed(d, path, size))
  {
    if |d| > 0 && d[0].path != path {
      AddUsedDistinct(d[1..], path, size);
      var rest := AddUsed(d[1..], path, size);
      AddUsedHas(d[1..], path, size, d[0].path);
      assert !Has(d[1..], d[0].path);
      forall j | 0 <= j < |rest| ensures rest[j].path != d[0].path { assert rest[j].path == d[0].path ==> Has(rest, d[0].path); }
    }
  }

  // ----- _summarize_df_mounts -----

  datatype Summary = Summary(byPath: seq<Used>, rootUsed: int, mountedUsed: int, totalUsed: int, topBuckets: seq<Used>)

  function StripSlashes(path: string): string { if |path| > 0 && path[0] == '/' then StripSlashes(path[1..]) else path }
  function FirstPart(path: string): string {
    if |path| == 0 || path[0] == '/' then "" else [path[0]] + FirstPart(path[1..])
  }
  // The top-level directory a mount lies under.
  function TopOf(path: string): string { "/" + FirstPart(StripSlashes(path)) }

  predicate NoSlash(p: string) { forall i :: 0 <= i < |p| ==> p[i] != '/' }
  predicate OnlySlashes(p: string) { forall i :: 0 <= i < |p| ==> p[i] == '/' }

  lemma {:induction false} StripsSlashes(slashes: string, s: string)
    requires OnlySlashes(slashes) && (|s| > 0 ==> s[0] != '/')
    ensures StripSlashes(slashes + s) == s
  {
    if |slashes| > 0 {
      assert (slashes + s)[1..] == slashes[1..] + s;
      StripsSlashes(slashes[1..], s);
    } else {
      assert slashes + s == s;
    }
  }

  lemma {:induction false} TakesFirstPart(part: string, rest: string)
    requires NoSlash(part) && (|rest| > 0 ==> rest[0] == '/')
    ensures FirstPart(part + rest) == part
  {
    if |part| > 0 {
      assert (part + rest)[1..] == part[1..] + rest;
      TakesFirstPart(part[1..], rest);
    } else {
      assert part + rest == rest;
    }
  }

  /** The top-level directory of a path is its first component that is not empty: whatever slashes come
      before it, and whatever comes after the next one. */
  lemma TopOfIsFirstComponent(path: string, slashes: string, part: string, rest: string)
    requires path == slashes + part + rest && OnlySlashes(slashes) && NoSlash(part) && (|rest| > 0 ==> rest[0] == '/')
    requires |part| == 0 ==> |rest| == 0
    ensures TopOf(path) == "/" + part
  {
    assert path == slashes + (part + rest);
    assert |part + rest| > 0 ==> (part + rest)[0] == part[0];
    StripsSlashes(slashes, part + rest);
    TakesFirstPart(part, rest);
  }

  function Included(mounts: seq<Mount>): seq<Mount> {
    if |mounts| == 0 then []
    else Included(mounts[..|mounts| - 1]) + if mounts[|mounts| - 1].isVirtual then [] else [mounts[|mounts| - 1]]
  }

  function UsedWhere(mounts: seq<Mount>, where: string -> bool): int {
    if |mounts| == 0 then 0
    else UsedWhere(mounts[..|mounts| - 1], where) + if where(mounts[|mounts| - 1].path) then mounts[|mounts| - 1].used else 0
  }

  function IsRoot(): string -> bool { p => p == "/" }
  function NotRoot(): string -> bool { p => p != "/" }
  function Any(): string -> bool { p => true }
  function TopIs(top: string): string -> bool { p => p != "/" && TopOf(p) == top }
  function PathIs(path: string): string -> bool { p => p == path }

  /** What the summary says of the included mounts: every total is a sum over them. */
  ghost predicate Summarises(s: Summary, mounts: seq<Mount>) {
    && s.rootUsed == UsedWhere(mounts, IsRoot()) && s.mountedUsed == UsedWhere(mounts, NotRoot())
    && SumWhere(s.topBuckets, Any()) == s.mountedUsed && Distinct(s.topBuckets) && Distinct(s.byPath)
    && (forall where: string -> bool :: SumWhere(s.byPath, where) == UsedWhere(mounts, where))
    && (forall top :: SumWhere(s.topBuckets, PathIs(top)) == UsedWhere(mounts, TopIs(top)))
    && (forall top :: Has(s.topBuckets, top) ==> |top| > 0)
  }

  // One included mount is added to the totals.
  predicate Counts(s: Summary, m: Mount, t: Summary) {
    && t.byPath == AddUsed(s.byPath, m.path, m.used)
    && if m.path == "/" then t.rootUsed == s.rootUsed + m.used && t.mountedUsed == s.mountedUsed && t.topBuckets == s.topBuckets
       else t.rootUsed == s.rootUsed && t.mountedUsed == s.mountedUsed + m.used && t.topBuckets == AddUsed(s.topBuckets, TopOf(m.path), m.used)
  }

  lemma CountMount(s: Summary, mounts: seq<Mount>, i: nat, t: Summary)
    requires i < |mounts| && Summarises(s, mounts[..i]) && Counts(s, mounts[i], t)
    ensures Summarises(t, mounts[..i + 1])
  {
    var m, before, now := mounts[i], mounts[..i], mounts[..i + 1];
    assert now[..i] == before && now[i] == m;
    AddUsedDistinct(s.byPath, m.path, m.used);
    forall where: string -> bool ensures SumWhere(t.byPath, where) == UsedWhere(now, where) { AddUsedAdds(s.byPath, m.path, m.used, where); }
    if m.path != "/" {
      AddUsedDistinct(s.topBuckets, TopOf(m.path), m.used);
      AddUsedAdds(s.topBuckets, TopOf(m.path), m.used, Any());
      forall top ensures SumWhere(t.topBuckets, PathIs(top)) == UsedWhere(now, TopIs(top)) {
        AddUsedAdds(s.topBuckets, TopOf(m.path), m.used, PathIs(top));
      }
      forall top | Has(t.topBuckets, top) ensures |top| > 0 { AddUsedHas(s.topBuckets, TopOf(m.path), m.used, top); }
    }
  }

  lemma NothingCounted()
    ensures Summarises(Summary([], 0, 0, 0, []), [])
  {
  }

  lemma TotalApart(s: Summary, mounts: seq<Mount>, total: int)
    requires Summarises(s, mounts)
    ensures Summarises(s.(totalUsed := total), mounts)
  {
  }

  // The loop's first half: virtual mounts are skipped.
  method Include(mounts: seq<Mount>) returns (included: seq<Mount>)
    ensures included == Included(mounts)
  {
    included := [];
    var j := 0;
    while j < |mounts|
      invariant j <= |mounts| && included == Included(mounts[..j])
    {
      assert mounts[..j + 1][..j] == mounts[..j] && mounts[..j + 1][j] == mounts[j];
      if !mounts[j].isVirtual { included := included + [mounts[j]]; }
      j := j + 1;
    }
    assert mounts[..j] == mounts;
  }

  // Its second half: the totals and buckets.
  method CountMounts(included: seq<Mount>) returns (s: Summary)
    ensures Summarises(s, included)
  {
    s := Summary([], 0, 0, 0, []);
    NothingCounted();
    assert included[..0] == [];
    var i := 0;
    while i < |included|
      invariant i <= |included| && Summarises(s, included[..i])
    {
      var m, before := included[i], s;
      s := s.(byPath := AddUsed(s.byPath, m.path, m.used));
      if m.path == "/" {
        s := s.(rootUsed := s.rootUsed + m.used);
      } else {
        s := s.(mountedUsed := s.mountedUsed + m.used, topBuckets := AddUsed(s.topBuckets, TopOf(m.path), m.used));
      }
      CountMount(before, included, i, s);
      i := i + 1;
    }
    assert included[..i] == included;
  }

  method SummarizeMounts(mounts: seq<Mount>) returns (s: Summary)
    ensures Summarises(s, Included(mounts)) && s.totalUsed == UsedWhere(Included(mounts), Any())
  {
    var included := Include(mounts);
    s := CountMounts(included);
    RootAndMounted(included);
    TotalApart(s, included, s.rootUsed + s.mountedUsed);
    s := s.(totalUsed := s.rootUsed + s.mountedUsed);
  }

  lemma {:induction false} RootAndMounted(mounts: seq<Mount>)
    ensures UsedWhere(mounts, IsRoot()) + UsedWhere(mounts, NotRoot()) == UsedWhere(mounts, Any())
  {
    if |mounts| > 0 { RootAndMounted(mounts[..|mounts| - 1]); }
  }

  // ----- the overlay on the root -----

  // path.rstrip('/')
  function StripRight(path: string): string {
    if |path| > 0 && path[|path| - 1] == '/' then StripRight(path[..|path| - 1]) else path
  }

  function Unscanned(parent: string, size: int): Node {
    Node(StripRight(parent) + "/.unscanned", Max(0, size), false, [], false)
  }

  function Sizes(ns: seq<Node>): int { if |ns| == 0 then 0 else Sizes(ns[..|ns| - 1]) + ns[|ns| - 1].size }

  // What `df` knows beyond the scan becomes one more child.
  function Raise(n: Node, used: int): Node {
    if used > n.size then n.(children := n.children + [Unscanned(n.path, used - n.size)], size := used, hasHiddenChildren := true) else n
  }

  // A raised directory is still its own size plus its children's.
  lemma RaiseKeepsOwn(n: Node, used: int)
    ensures Raise(n, used).size == Max(n.size, used) && Raise(n, used).path == n.path
    ensures used > n.size ==> Raise(n, used).hasHiddenChildren
    ensures used <= n.size ==> Raise(n, used) == n
    ensures Raise(n, used).size - Sizes(Raise(n, used).children) == n.size - Sizes(n.children)
  {
    Appended(n.children, Unscanned(n.path, used - n.size), []);
  }

  function Missing(top: string): Node { Node(top, 0, true, [], true) }

  predicate Present(ns: seq<Node>, path: string) { exists i :: 0 <= i < |ns| && ns[i].path == path }

  // The place of the child a path stands for: the last one, as a dictionary built in order has it.
  function Place(ns: seq<Node>, path: string): (i: nat)
    requires Present(ns, path)
    ensures i < |ns| && ns[i].path == path && forall j :: i < j < |ns| ==> ns[j].path != path
  {
    if ns[|ns| - 1].path == path then |ns| - 1
    else
      PresentSnoc(ns, path);
      Place(ns[..|ns| - 1], path)
  }

  lemma PresentSnoc(ns: seq<Node>, path: string)
    requires |ns| > 0
    ensures Present(ns, path) <==> ns[|ns| - 1].path == path || Present(ns[..|ns| - 1], path)
  {
    if Present(ns, path) {
      var i :| 0 <= i < |ns| && ns[i].path == path;
      if i < |ns| - 1 { assert ns[..|ns| - 1][i].path == path; }
    }
    if Present(ns[..|ns| - 1], path) {
      var i :| 0 <= i < |ns| - 1 && ns[..|ns| - 1][i].path == path;
      assert ns[i].path == path;
    }
  }

  // The bucket of one top-level directory, applied to its child or to a new one.
  function PutBucket(ns: seq<Node>, b: Used): seq<Node> {
    if Present(ns, b.path) then ns[Place(ns, b.path) := Raise(ns[Place(ns, b.path)], b.size)]
    else ns + [Raise(Missing(b.path), b.size)]
  }

  function PutBuckets(ns: seq<Node>, bs: seq<Used>): seq<Node> {
    if |bs| == 0 then ns else PutBucket(PutBuckets(ns, bs[..|bs| - 1]), bs[|bs| - 1])
  }

  // What was scanned at a path.
  function ScannedAt(ns: seq<Node>, path: string): int { if Present(ns, path) then ns[Place(ns, path)].size else 0 }

  function ScannedAtAll(ns: seq<Node>, bs: seq<Used>): int {
    if |bs| == 0 then 0 else ScannedAtAll(ns, bs[..|bs| - 1]) + ScannedAt(ns, bs[|bs| - 1].path)
  }

  // What was scanned outside the mounts' top-level directories.
  function Elsewhere(ns: seq<Node>, bs: seq<Used>): int {
    if |ns| == 0 then 0 else Elsewhere(ns[..|ns| - 1], bs) + if Has(bs, ns[|ns| - 1].path) then 0 else ns[|ns| - 1].size
  }

  // The larger of what was scanned and what is mounted, over the mounts.
  function Larger(ns: seq<Node>, bs: seq<Used>): int {
    if |bs| == 0 then 0 else Larger(ns, bs[..|bs| - 1]) + Max(bs[|bs| - 1].size, ScannedAt(ns, bs[|bs| - 1].path))
  }

  predicate DistinctPaths(ns: seq<Node>) { forall i, j :: 0 <= i < j < |ns| && ns[i].path != "" ==> ns[i].path != ns[j].path }

  // Replacing one child by another of the same path.
  lemma {:induction false} Replaced(ns: seq<Node>, k: nat, n: Node, bs: seq<Used>)
    requires k < |ns| && n.path == ns[k].path
    ensures Sizes(ns[k := n]) == Sizes(ns) - ns[k].size + n.size
    ensures Has(bs, n.path) ==> Elsewhere(ns[k := n], bs) == Elsewhere(ns, bs)
  {
    var last := |ns| - 1;
    if k < last {
      assert ns[k := n][..last] == ns[..last][k := n];
      Replaced(ns[..last], k, n, bs);
    } else {
      assert ns[k := n][..last] == ns[..last];
    }
  }

  lemma Appended(ns: seq<Node>, n: Node, bs: seq<Used>)
    ensures Sizes(ns + [n]) == Sizes(ns) + n.size
    ensures Has(bs, n.path) ==> Elsewhere(ns + [n], bs) == Elsewhere(ns, bs)
  {
    assert (ns + [n])[..|ns|] == ns;
  }

  lemma SamePlace(a: seq<Node>, b: seq<Node>, path: string)
    requires |a| <= |b| && (forall i :: 0 <= i < |a| ==> a[i].path == b[i].path)
    requires (forall i :: |a| <= i < |b| ==> b[i].path != path)
    requires forall i :: 0 <= i < |a| && a[i].path == path ==> a[i].size == b[i].size
    ensures ScannedAt(b, path) == ScannedAt(a, path)
  {
    assert Present(a, path) ==> Present(b, path) by {
      if Present(a, path) { assert b[Place(a, path)].path == path; }
    }
    if Present(b, path) {
      var i := Place(b, path);
      assert a[i].path == path;
      assert Place(a, path) == i;
    }
  }

  lemma BucketPut(ns: seq<Node>, b: Used, other: string, bs: seq<Used>)
    requires Has(bs, b.path)
    ensures Sizes(PutBucket(ns, b)) == Sizes(ns) + Max(0, b.size - ScannedAt(ns, b.path))
    ensures Elsewhere(PutBucket(ns, b), bs) == Elsewhere(ns, bs)
    ensures other != b.path ==> ScannedAt(PutBucket(ns, b), other) == ScannedAt(ns, other)
  {
    if Present(ns, b.path) {
      Replaced(ns, Place(ns, b.path), Raise(ns[Place(ns, b.path)], b.size), bs);
    } else {
      Appended(ns, Raise(Missing(b.path), b.size), bs);
    }
    if other != b.path { SamePlace(ns, PutBucket(ns, b), other); }
  }

  // Buckets of different paths do not touch each other's children.
  lemma {:induction false} BucketsPut(ns: seq<Node>, bs: seq<Used>, all: seq<Used>, other: string)
    requires Distinct(bs) && forall i :: 0 <= i < |bs| ==> Has(all, bs[i].path)
    ensures Sizes(PutBuckets(ns, bs)) - Sizes(ns) == Larger(ns, bs) - ScannedAtAll(ns, bs)
    ensures !Has(bs, other) ==> ScannedAt(PutBuckets(ns, bs), other) == ScannedAt(ns, other)
    ensures Elsewhere(PutBuckets(ns, bs), all) == Elsewhere(ns, all)
  {
    if |bs| > 0 {
      var init, b := bs[..|bs| - 1], bs[|bs| - 1];
      BucketsPut(ns, init, all, b.path);
      assert !Has(init, b.path);
      HasSnoc(bs, other);
      if !Has(bs, other) { BucketsPut(ns, init, all, other); }
      BucketPut(PutBuckets(ns, init), b, other, all);
    }
  }

  lemma HasSnoc(bs: seq<Used>, path: string)
    requires |bs| > 0
    ensures Has(bs, path) <==> Has(bs[..|bs| - 1], path) || bs[|bs| - 1].path == path
  {
    if Has(bs, path) {
      var i :| 0 <= i < |bs| && bs[i].path == path;
      if i < |bs| - 1 { assert bs[..|bs| - 1][i].path == path; }
    }
    if Has(bs[..|bs| - 1], path) {
      var i :| 0 <= i < |bs| - 1 && bs[..|bs| - 1][i].path == path;
      assert bs[i].path == path;
    }
  }

  lemma {:induction false} OneMoreBucket(ns: seq<Node>, bs: seq<Used>)
    requires |bs| > 0 && !Has(bs[..|bs| - 1], bs[|bs| - 1].path) && bs[|bs| - 1].path != "" && DistinctPaths(ns)
    ensures Elsewhere(ns, bs[..|bs| - 1]) == Elsewhere(ns, bs) + ScannedAt(ns, bs[|bs| - 1].path)
  {
    var path := bs[|bs| - 1].path;
    if |ns| > 0 {
      var init, last := ns[..|ns| - 1], ns[|ns| - 1];
      HasSnoc(bs, last.path);
      OneMoreBucket(init, bs);
      PresentSnoc(ns, path);
      if last.path != path { SamePlace(init, ns, path); }
    }
  }

  // With distinct child paths the scan splits into the mounts' directories and the rest.
  lemma {:induction false} ScanSplits(ns: seq<Node>, bs: seq<Used>)
    requires Distinct(bs) && DistinctPaths(ns) && forall i :: 0 <= i < |bs| ==> bs[i].path != ""
    ensures Sizes(ns) == ScannedAtAll(ns, bs) + Elsewhere(ns, bs)
  {
    if |bs| == 0 {
      NoBuckets(ns);
      assert bs == [];
    } else {
      assert !Has(bs[..|bs| - 1], bs[|bs| - 1].path);
      OneMoreBucket(ns, bs);
      ScanSplits(ns, bs[..|bs| - 1]);
    }
  }

  lemma {:induction false} NoBuckets(ns: seq<Node>)
    ensures Elsewhere(ns, []) == Sizes(ns)
  {
    if |ns| > 0 { NoBuckets(ns[..|ns| - 1]); }
  }

  function RootRest(size: int): (n: Node)
    ensures n.size == Max(0, size)
  {
    Unscanned("/", size)
  }

  // The root's children after the overlay; display order is not part of this model.
  function Overlaid(ns: seq<Node>, s: Summary): seq<Node> {
    var put := PutBuckets(ns, s.topBuckets);
    var elsewhere := Elsewhere(put, s.topBuckets);
    if s.rootUsed > elsewhere then put + [RootRest(s.rootUsed - elsewhere)] else put
  }

  /** The overlay conserves bytes: the children sum to the larger of bucket and scan for every mounted
      top-level directory, plus the larger of the root file system's use and the rest of the scan. */
  lemma OverlaySums(ns: seq<Node>, s: Summary)
    requires DistinctPaths(ns) && Distinct(s.topBuckets) && forall top :: Has(s.topBuckets, top) ==> |top| > 0
    ensures Sizes(Overlaid(ns, s)) == Larger(ns, s.topBuckets) + Max(s.rootUsed, Elsewhere(ns, s.topBuckets))
  {
    var bs, put := s.topBuckets, PutBuckets(ns, s.topBuckets);
    forall i | 0 <= i < |bs| ensures Has(bs, bs[i].path) {}
    BucketsPut(ns, bs, bs, "");
    ScanSplits(ns, bs);
    Appended(put, RootRest(s.rootUsed - Elsewhere(put, bs)), bs);
  }

  // No scan found more than `df` accounts for.
  predicate WithinDf(ns: seq<Node>, s: Summary) {
    Elsewhere(ns, s.topBuckets) <= s.rootUsed && forall i :: 0 <= i < |s.topBuckets| ==> ScannedAt(ns, s.topBuckets[i].path) <= s.topBuckets[i].size
  }

  lemma {:induction false} LargerAtLeast(ns: seq<Node>, bs: seq<Used>)
    ensures Larger(ns, bs) >= SumWhere(bs, Any())
    ensures Larger(ns, bs) == SumWhere(bs, Any()) <==> forall i :: 0 <= i < |bs| ==> ScannedAt(ns, bs[i].path) <= bs[i].size
  {
    if |bs| > 0 {
      var init := bs[..|bs| - 1];
      LargerAtLeast(ns, init);
      SumSnoc(bs);
      assert forall i :: 0 <= i < |init| ==> init[i] == bs[i];
    }
  }

  lemma {:induction false} SumSnoc(bs: seq<Used>)
    requires |bs| > 0
    ensures SumWhere(bs, Any()) == SumWhere(bs[..|bs| - 1], Any()) + bs[|bs| - 1].size
  {
    if |bs| > 1 {
      SumSnoc(bs[1..]);
      assert bs[..|bs| - 1][1..] == bs[1..][..|bs| - 2];
    }
  }

  /** The root's children sum to the total `df` reports if and only if no scan exceeds it. */
  lemma SumIsTotalUsedIff(ns: seq<Node>, s: Summary, mounts: seq<Mount>)
    requires DistinctPaths(ns) && Summarises(s, Included(mounts)) && s.totalUsed == UsedWhere(Included(mounts), Any())
    ensures Sizes(Overlaid(ns, s)) == s.totalUsed <==> WithinDf(ns, s)
  {
    OverlaySums(ns, s);
    LargerAtLeast(ns, s.topBuckets);
    RootAndMounted(Included(mounts));
  }

  function WithChild(ns: seq<Node>, path: string): seq<Node> { if Present(ns, path) then ns else ns + [Missing(path)] }

  lemma PutOneAgrees(ns: seq<Node>, b: Used, bs: seq<Used>)
    requires Has(bs, b.path)
    ensures var t := WithChild(ns, b.path);
      && Present(t, b.path) && PutBucket(ns, b) == t[Place(t, b.path) := Raise(t[Place(t, b.path)], b.size)]
      && Sizes(PutBucket(ns, b)) - Sizes(ns) == Max(0, b.size - t[Place(t, b.path)].size)
  {
    BucketPut(ns, b, b.path, bs);
    if !Present(ns, b.path) { AppendedPlace(ns, Missing(b.path)); }
  }

  lemma AppendedPlace(ns: seq<Node>, n: Node)
    requires !Present(ns, n.path)
    ensures Present(ns + [n], n.path) && Place(ns + [n], n.path) == |ns| && (ns + [n])[|ns|] == n
    ensures forall m: Node :: (ns + [n])[|ns| := m] == ns + [m]
  {
    assert (ns + [n])[|ns|].path == n.path;
  }

  lemma PutBucketsSnoc(ns: seq<Node>, bs: seq<Used>, i: nat)
    requires i < |bs|
    ensures PutBuckets(ns, bs[..i + 1]) == PutBucket(PutBuckets(ns, bs[..i]), bs[i]) && Has(bs, bs[i].path)
  {
    assert bs[..i + 1][..i] == bs[..i] && bs[..i + 1][i] == bs[i];
  }

  lemma RestAppended(ns: seq<Node>, s: Summary)
    ensures var put := PutBuckets(ns, s.topBuckets);
      Sizes(Overlaid(ns, s)) == Sizes(put) + Max(0, s.rootUsed - Elsewhere(put, s.topBuckets))
  {
    var put := PutBuckets(ns, s.topBuckets);
    Appended(put, RootRest(s.rootUsed - Elsewhere(put, s.topBuckets)), s.topBuckets);
  }

  // What appending the rest does, if there is any.
  lemma RestGrows(ns: seq<Node>, s: Summary, put: seq<Node>)
    requires put == PutBuckets(ns, s.topBuckets)
    ensures var elsewhere := Elsewhere(put, s.topBuckets);
      if s.rootUsed > elsewhere
      then put + [RootRest(s.rootUsed - elsewhere)] == Overlaid(ns, s)
           && Sizes(put + [RootRest(s.rootUsed - elsewhere)]) == Sizes(put) + (s.rootUsed - elsewhere)
      else put == Overlaid(ns, s)
  {
    RestAppended(ns, s);
  }

  // The root of the tree and the debug counter, as the overlay changes them.
  class RootTree {
    var children: seq<Node>
    var size: int
    var overlayUnknownBytes: int

    // One bucket: the child it stands for, or a new one, is raised to what `df` reports.
    method PutOne(b: Used, ghost bs: seq<Used>)
      requires Has(bs, b.path)
      modifies this`children, this`overlayUnknownBytes
      ensures children == PutBucket(old(children), b)
      ensures overlayUnknownBytes - old(overlayUnknownBytes) == Sizes(children) - Sizes(old(children))
    {
      PutOneAgrees(children, b, bs);
      var now := WithChild(children, b.path);
      var k := Place(now, b.path);
      var child := now[k];
      if b.size > child.size {
        overlayUnknownBytes := overlayUnknownBytes + (b.size - child.size);
        now := now[k := Raise(child, b.size)];
      }
      children := now;
    }

    /** _apply_df_overlay_to_root_tree: the children become the overlaid ones, and the unknown bytes grow by
        exactly what the children's sum grows by. */
    method ApplyOverlay(s: Summary)
      requires Distinct(s.topBuckets) && forall top :: Has(s.topBuckets, top) ==> |top| > 0
      modifies this
      ensures children == Overlaid(old(children), s)
      ensures overlayUnknownBytes - old(overlayUnknownBytes) == Sizes(children) - Sizes(old(children))
      ensures size == if s.totalUsed > 0 then s.totalUsed else old(size)
    {
      ghost var scanned, before := children, overlayUnknownBytes;
      var i := 0;
      while i < |s.topBuckets|
        invariant i <= |s.topBuckets| && children == PutBuckets(scanned, s.topBuckets[..i]) && size == old(size)
        invariant overlayUnknownBytes - before == Sizes(children) - Sizes(scanned)
      {
        PutBucketsSnoc(scanned, s.topBuckets, i);
        PutOne(s.topBuckets[i], s.topBuckets);
        i := i + 1;
      }
      assert s.topBuckets[..i] == s.topBuckets;
      AddRest(s, scanned);
      if s.totalUsed > 0 { size := s.totalUsed; }
    }

    // The rest of the root file system becomes a child of its own.
    method AddRest(s: Summary, ghost scanned: seq<Node>)
      requires children == PutBuckets(scanned, s.topBuckets)
      modifies this`children, this`overlayUnknownBytes
      ensures children == Overlaid(scanned, s)
      ensures overlayUnknownBytes - old(overlayUnknownBytes) == Sizes(children) - Sizes(old(children))
    {
      RestGrows(scanned, s, children);
      var elsewhere := Elsewhere(children, s.topBuckets);
      if s.rootUsed > elsewhere {
        children := children + [RootRest(s.rootUsed - elsewhere)];
        overlayUnknownBytes := overlayUnknownBytes + (s.rootUsed - elsewhere);
      }
    }
  }

  // ----- the overlay on one node below the root -----

  // The mounts at or under a path.
  function Under(path: string): string -> bool { mount => mount == path || StripRight(path) + "/" <= mount }

  lemma {:induction false} StripsRight(s: string, slashes: string)
    requires OnlySlashes(slashes) && (|s| > 0 ==> s[|s| - 1] != '/')
    ensures StripRight(s + slashes) == s
  {
    var all := s + slashes;
    if |slashes| > 0 {
      assert all[|all| - 1] == slashes[|slashes| - 1];
      assert all[..|all| - 1] == s + slashes[..|slashes| - 1];
      StripsRight(s, slashes[..|slashes| - 1]);
    } else {
      assert all == s;
    }
  }

  /** A mount lies at or under a path if it is the path itself, or the path, whatever slashes end it, then a
      slash, then anything: never merely because its name begins with the path's last component. */
  lemma UnderIff(path: string, s: string, slashes: string, mount: string)
    requires path == s + slashes && OnlySlashes(slashes) && (|s| > 0 ==> s[|s| - 1] != '/')
    ensures Under(path)(mount) <==> mount == path || exists rest :: mount == s + "/" + rest
  {
    StripsRight(s, slashes);
    if s + "/" <= mount { assert mount == s + "/" + mount[|s + "/"|..]; }
  }

  // A node and the debug counter, as the overlay changes them.
  class TargetNode {
    var node: Node
    var overlayUnknownBytes: int

    /** _overlay_mount_usage_on_node: the node grows to what `df` reports at or under its path, if that is
        more; a directory gets the difference as a child, so that its size stays its own size plus its
        children's; and the unknown bytes grow by exactly as much. */
    method Overlay(s: Summary, ghost mounts: seq<Mount>)
      requires Summarises(s, Included(mounts))
      modifies this
      ensures var target := UsedWhere(Included(mounts), Under(old(node).path));
        node.size == if target > 0 then Max(old(node).size, target) else old(node).size
      ensures overlayUnknownBytes - old(overlayUnknownBytes) == node.size - old(node).size
      ensures old(node).isDirectory ==> node.size - Sizes(node.children) == old(node).size - Sizes(old(node).children)
      ensures node == old(node).(size := node.size, children := node.children, hasHiddenChildren := node.hasHiddenChildren)
      ensures node.size == old(node).size || !node.isDirectory ==> node == old(node).(size := node.size)
      ensures node.size > old(node).size && node.isDirectory ==>
        node.hasHiddenChildren && node.children == old(node).children + [Unscanned(old(node).path, node.size - old(node).size)]
    {
      var target, i := 0, 0;
      while i < |s.byPath|
        invariant i <= |s.byPath| && target + SumWhere(s.byPath[i..], Under(node.path)) == SumWhere(s.byPath, Under(node.path))
        invariant node == old(node) && overlayUnknownBytes == old(overlayUnknownBytes)
      {
        assert s.byPath[i..][0] == s.byPath[i] && s.byPath[i..][1..] == s.byPath[i + 1..];
        if Under(node.path)(s.byPath[i].path) { target := target + s.byPath[i].size; }
        i := i + 1;
      }
      if target <= 0 || target <= node.size { return; }
      var delta := target - node.size;
      if node.isDirectory {
        Appended(node.children, Unscanned(node.path, delta), []);
        node := node.(children := node.children + [Unscanned(node.path, delta)], hasHiddenChildren := true);
      }
      node := node.(size := target);
      overlayUnknownBytes := overlayUnknownBytes + delta;
    }
  }
}
