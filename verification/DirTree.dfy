/** The depth-limited directory scan: nodes down to the limit, and below it one walk that adds up file
    sizes only.  Trees are free of symbolic links and errors, and scanned from their root. */
module DirTree {
  datatype Fs = File(name: string, bytes: nat) | Dir(name: string, own: nat, entries: seq<Fs>)

  datatype Node = Node(
    name: string, size: nat, ownSize: nat, isDirectory: bool, children: seq<Node>, fileCount: nat, depth: nat, hasHiddenChildren: bool)

  // ----- what the scan is an approximation of -----

  // The sizes of all files.
  function FileBytes(t: Fs): nat {
    match t case File(_, bytes) => bytes case Dir(_, _, entries) => FileBytesIn(entries)
  }
  function FileBytesIn(ts: seq<Fs>): nat { if |ts| == 0 then 0 else FileBytes(ts[0]) + FileBytesIn(ts[1..]) }

  function Files(t: Fs): nat {
    match t case File(_, _) => 1 case Dir(_, _, entries) => FilesIn(entries)
  }
  function FilesIn(ts: seq<Fs>): nat { if |ts| == 0 then 0 else Files(ts[0]) + FilesIn(ts[1..]) }

  // The own sizes of the directories at depth at most limit; t itself is at the given depth.
  function OwnDownTo(t: Fs, depth: nat, limit: nat): nat {
    match t
    case File(_, _) => 0
    case Dir(_, own, entries) => (if depth <= limit then own else 0) + OwnDownToIn(entries, depth + 1, limit)
  }
  function OwnDownToIn(ts: seq<Fs>, depth: nat, limit: nat): nat {
    if |ts| == 0 then 0 else OwnDownTo(ts[0], depth, limit) + OwnDownToIn(ts[1..], depth, limit)
  }

  // The full recursive size: every file and every directory.
  function FullSize(t: Fs): nat {
    match t case File(_, bytes) => bytes case Dir(_, own, entries) => own + FullSizeIn(entries)
  }
  function FullSizeIn(ts: seq<Fs>): nat { if |ts| == 0 then 0 else FullSize(ts[0]) + FullSizeIn(ts[1..]) }

  // Some directory at the limit is not empty.
  predicate CutOff(t: Fs, depth: nat, limit: nat) {
    t.Dir? && if depth >= limit then |t.entries| > 0 else CutOffIn(t.entries, depth + 1, limit)
  }
  predicate CutOffIn(ts: seq<Fs>, depth: nat, limit: nat) {
    |ts| > 0 && (CutOff(ts[0], depth, limit) || CutOffIn(ts[1..], depth, limit))
  }

  // Every entry of the tree is a node of its own.
  predicate Mirrors(n: Node, t: Fs) {
    n.name == t.name && match t
    case File(_, bytes) => !n.isDirectory && n.children == [] && n.ownSize == bytes
    case Dir(_, own, entries) => n.isDirectory && n.ownSize == own && MirrorsIn(n.children, entries)
  }
  predicate MirrorsIn(ns: seq<Node>, ts: seq<Fs>) {
    |ns| == |ts| && (|ts| > 0 ==> Mirrors(ns[0], ts[0]) && MirrorsIn(ns[1..], ts[1..]))
  }

  // ----- the scan -----

  function FileNode(t: Fs, depth: nat): Node
    requires t.File?
  {
    Node(t.name, t.bytes, t.bytes, false, [], 1, depth, false)
  }

  function Sizes(ns: seq<Node>): nat { if |ns| == 0 then 0 else ns[0].size + Sizes(ns[1..]) }
  function Counts(ns: seq<Node>): nat { if |ns| == 0 then 0 else ns[0].fileCount + Counts(ns[1..]) }
  predicate AnyHidden(ns: seq<Node>) { exists i :: 0 <= i < |ns| && ns[i].hasHiddenChildren }

  function Scan(t: Fs, depth: nat, limit: nat): Node {
    if t.File? then FileNode(t, depth)
    else if depth >= limit then
      Node(t.name, t.own + FileBytesIn(t.entries), t.own, true, [], FilesIn(t.entries), depth, |t.entries| > 0)
    else
      var children := ScanAll(t.entries, depth + 1, limit);
      Node(t.name, t.own + Sizes(children), t.own, true, children, Counts(children), depth, AnyHidden(children))
  }
  function ScanAll(ts: seq<Fs>, depth: nat, limit: nat): seq<Node> {
    if |ts| == 0 then [] else [Scan(ts[0], depth, limit)] + ScanAll(ts[1..], depth, limit)
  }

  // The directories and the files among some entries, in order: one step of os.walk.
  function DirsOf(ts: seq<Fs>): seq<Fs> {
    if |ts| == 0 then [] else (if ts[0].Dir? then [ts[0]] else []) + DirsOf(ts[1..])
  }
  function FilesOf(ts: seq<Fs>): (r: seq<Fs>)
    ensures forall i :: 0 <= i < |r| ==> r[i].File?
  {
    if |ts| == 0 then [] else (if ts[0].File? then [ts[0]] else []) + FilesOf(ts[1..])
  }

  function Weight(t: Fs): nat { match t case File(_, _) => 1 case Dir(_, _, entries) => 1 + WeightIn(entries) }
  function WeightIn(ts: seq<Fs>): nat { if |ts| == 0 then 0 else Weight(ts[0]) + WeightIn(ts[1..]) }

  lemma {:induction false} Concatenated(a: seq<Fs>, b: seq<Fs>)
    ensures FileBytesIn(a + b) == FileBytesIn(a) + FileBytesIn(b)
    ensures FilesIn(a + b) == FilesIn(a) + FilesIn(b)
    ensures WeightIn(a + b) == WeightIn(a) + WeightIn(b)
  {
    if |a| == 0 {
      assert a + b == b;
    } else {
      assert (a + b)[1..] == a[1..] + b;
      Concatenated(a[1..], b);
    }
  }

  lemma {:induction false} WalkSplits(ts: seq<Fs>)
    ensures FileBytesIn(ts) == FileBytesIn(DirsOf(ts)) + FileBytesIn(FilesOf(ts))
    ensures FilesIn(ts) == FilesIn(DirsOf(ts)) + FilesIn(FilesOf(ts))
    ensures WeightIn(DirsOf(ts)) <= WeightIn(ts)
    ensures |ts| > 0 <==> |DirsOf(ts)| > 0 || |FilesOf(ts)| > 0
  {
    if |ts| > 0 {
      WalkSplits(ts[1..]);
      if ts[0].Dir? {
        assert DirsOf(ts)[1..] == DirsOf(ts[1..]) && FilesOf(ts) == FilesOf(ts[1..]);
      } else {
        assert FilesOf(ts)[1..] == FilesOf(ts[1..]) && DirsOf(ts) == DirsOf(ts[1..]);
      }
    }
  }

  // The walk takes the first directory off the stack and puts its subdirectories on.
  lemma WalkStep(stack: seq<Fs>)
    requires |stack| > 0 && stack[0].Dir?
    ensures var dirs, files := DirsOf(stack[0].entries), FilesOf(stack[0].entries);
      && FileBytesIn(stack) == FileBytesIn(files) + FileBytesIn(dirs + stack[1..])
      && FilesIn(stack) == FilesIn(files) + FilesIn(dirs + stack[1..])
      && WeightIn(dirs + stack[1..]) < WeightIn(stack)
      && (|stack[0].entries| > 0 <==> |dirs| > 0 || |files| > 0)
      && forall i :: 0 <= i < |dirs| ==> dirs[i].Dir?
  {
    WalkSplits(stack[0].entries);
    Concatenated(DirsOf(stack[0].entries), stack[1..]);
    DirsAreDirs(stack[0].entries);
  }

  // summarize_directory with approximate_limit: os.walk from the top, adding up files.
  method Summarize(t: Fs) returns (totalSize: nat, totalFiles: nat, hasChildren: bool)
    requires t.Dir?
    ensures totalSize == t.own + FileBytesIn(t.entries) && totalFiles == FilesIn(t.entries) && (hasChildren <==> |t.entries| > 0)
  {
    totalSize, totalFiles, hasChildren := t.own, 0, false;
    var stack := [t];
    assert stack[1..] == [];
    while |stack| > 0
      invariant forall i :: 0 <= i < |stack| ==> stack[i].Dir?
      invariant totalSize + FileBytesIn(stack) == t.own + FileBytesIn(t.entries)
      invariant totalFiles + FilesIn(stack) == FilesIn(t.entries)
      invariant (stack == [t] && !hasChildren) || (hasChildren && |t.entries| > 0) || (stack == [] && |t.entries| == 0 && !hasChildren)
      decreases WeightIn(stack)
    {
      var dir := stack[0];
      var dirs, files := DirsOf(dir.entries), FilesOf(dir.entries);
      WalkStep(stack);
      if |dirs| > 0 { hasChildren := true; }
      ghost var bytes, count, had := totalSize + FileBytesIn(files), totalFiles + FilesIn(files), hasChildren;
      var i := 0;
      assert files[0..] == files;
      while i < |files|
        invariant i <= |files|
        invariant totalSize + FileBytesIn(files[i..]) == bytes && totalFiles + FilesIn(files[i..]) == count
        invariant hasChildren <==> had || i > 0
      {
        assert files[i..][0] == files[i] && files[i..][1..] == files[i + 1..];
        hasChildren := true;
        totalSize := totalSize + files[i].bytes;
        totalFiles := totalFiles + 1;
        i := i + 1;
      }
      stack := dirs + stack[1..];
    }
  }

  lemma {:induction false} DirsAreDirs(ts: seq<Fs>)
    ensures forall i :: 0 <= i < |DirsOf(ts)| ==> DirsOf(ts)[i].Dir?
  {
    if |ts| > 0 { DirsAreDirs(ts[1..]); }
  }

  lemma {:induction false} ScannedSoFar(ts: seq<Fs>, i: nat, depth: nat, limit: nat)
    requires i < |ts|
    ensures ScanAll(ts[..i + 1], depth, limit) == ScanAll(ts[..i], depth, limit) + [Scan(ts[i], depth, limit)]
    ensures var ns, n := ScanAll(ts[..i], depth, limit), Scan(ts[i], depth, limit);
      && Sizes(ns + [n]) == Sizes(ns) + n.size && Counts(ns + [n]) == Counts(ns) + n.fileCount
      && (AnyHidden(ns + [n]) <==> AnyHidden(ns) || n.hasHiddenChildren)
  {
    ScanAllSnoc(ts[..i], ts[i], depth, limit);
    assert ts[..i + 1] == ts[..i] + [ts[i]];
    NodesSnoc(ScanAll(ts[..i], depth, limit), Scan(ts[i], depth, limit));
  }

  lemma {:induction false} ScanAllSnoc(ts: seq<Fs>, t: Fs, depth: nat, limit: nat)
    ensures ScanAll(ts + [t], depth, limit) == ScanAll(ts, depth, limit) + [Scan(t, depth, limit)]
  {
    if |ts| > 0 {
      assert (ts + [t])[1..] == ts[1..] + [t];
      ScanAllSnoc(ts[1..], t, depth, limit);
    }
  }

  lemma {:induction false} NodesSnoc(ns: seq<Node>, n: Node)
    ensures Sizes(ns + [n]) == Sizes(ns) + n.size && Counts(ns + [n]) == Counts(ns) + n.fileCount
    ensures AnyHidden(ns + [n]) <==> AnyHidden(ns) || n.hasHiddenChildren
  {
    if |ns| > 0 {
      assert (ns + [n])[1..] == ns[1..] + [n];
      NodesSnoc(ns[1..], n);
    }
    HiddenSnoc(ns, n);
  }

  lemma HiddenSnoc(ns: seq<Node>, n: Node)
    ensures AnyHidden(ns + [n]) <==> AnyHidden(ns) || n.hasHiddenChildren
  {
    if AnyHidden(ns) {
      var i :| 0 <= i < |ns| && ns[i].hasHiddenChildren;
      assert (ns + [n])[i].hasHiddenChildren;
    }
    if n.hasHiddenChildren { assert (ns + [n])[|ns|].hasHiddenChildren; }
  }

  // scan_node; children stay in the order of the directory listing.
  method ScanNode(t: Fs, depth: nat, limit: nat) returns (node: Node)
    ensures node == Scan(t, depth, limit)
    decreases t
  {
    if t.File? { return FileNode(t, depth); }
    if depth >= limit {
      var totalSize, totalFiles, hasChildren := Summarize(t);
      return Node(t.name, totalSize, t.own, true, [], totalFiles, depth, hasChildren);
    }
    var children, totalSize, totalFiles, hidden := [], t.own, 0, false;
    var i := 0;
    while i < |t.entries|
      invariant i <= |t.entries| && children == ScanAll(t.entries[..i], depth + 1, limit)
      invariant totalSize == t.own + Sizes(children) && totalFiles == Counts(children) && (hidden <==> AnyHidden(children))
    {
      ScannedSoFar(t.entries, i, depth + 1, limit);
      var child := ScanNode(t.entries[i], depth + 1, limit);
      children := children + [child];
      totalSize := totalSize + child.size;
      totalFiles := totalFiles + child.fileCount;
      if child.hasHiddenChildren { hidden := true; }
      i := i + 1;
    }
    assert t.entries[..i] == t.entries;
    node := Node(t.name, totalSize, t.own, true, children, totalFiles, depth, hidden);
  }

  // ----- what the scan reports -----

  /** Reported size: all file sizes, and the own sizes of the directories down to the limit. */
  lemma {:induction false} SizeReported(t: Fs, depth: nat, limit: nat)
    requires depth <= limit
    ensures Scan(t, depth, limit).size == FileBytes(t) + OwnDownTo(t, depth, limit)
    ensures Scan(t, depth, limit).fileCount == Files(t)
    decreases t, 0
  {
    if t.Dir? {
      if depth >= limit { NoneBelow(t.entries, depth + 1, limit); } else { SizesReported(t.entries, depth + 1, limit); }
    }
  }

  lemma {:induction false} SizesReported(ts: seq<Fs>, depth: nat, limit: nat)
    requires depth <= limit
    ensures Sizes(ScanAll(ts, depth, limit)) == FileBytesIn(ts) + OwnDownToIn(ts, depth, limit)
    ensures Counts(ScanAll(ts, depth, limit)) == FilesIn(ts)
    decreases ts, 1
  {
    if |ts| > 0 {
      SizeReported(ts[0], depth, limit);
      SizesReported(ts[1..], depth, limit);
      var ns := ScanAll(ts, depth, limit);
      assert ns[1..] == ScanAll(ts[1..], depth, limit);
    }
  }

  lemma {:induction false} NoneBelow(ts: seq<Fs>, depth: nat, limit: nat)
    requires depth > limit
    ensures OwnDownToIn(ts, depth, limit) == 0
    decreases ts
  {
    if |ts| > 0 {
      if ts[0].Dir? { NoneBelow(ts[0].entries, depth + 1, limit); }
      NoneBelow(ts[1..], depth, limit);
    }
  }

  lemma {:induction false} OwnGrows(ts: seq<Fs>, depth: nat, limit: nat, deeper: nat)
    requires limit <= deeper
    ensures OwnDownToIn(ts, depth, limit) <= OwnDownToIn(ts, depth, deeper)
    decreases ts
  {
    if |ts| > 0 {
      if ts[0].Dir? { OwnGrows(ts[0].entries, depth + 1, limit, deeper); }
      OwnGrows(ts[1..], depth, limit, deeper);
    }
  }

  /** A deeper scan never reports less, and the file count does not depend on the limit. */
  lemma DeeperIsNotSmaller(t: Fs, limit: nat, deeper: nat)
    requires limit <= deeper
    ensures Scan(t, 0, limit).size <= Scan(t, 0, deeper).size
    ensures Scan(t, 0, limit).fileCount == Scan(t, 0, deeper).fileCount
  {
    SizeReported(t, 0, limit);
    SizeReported(t, 0, deeper);
    OwnGrows([t], 0, limit, deeper);
    assert [t][1..] == [];
  }

  /** The hidden flag says exactly that some directory at the limit has entries, and exactly that some
      entry of the tree has no node. */
  lemma {:induction false} HiddenIff(t: Fs, depth: nat, limit: nat)
    requires depth <= limit
    ensures Scan(t, depth, limit).hasHiddenChildren <==> CutOff(t, depth, limit)
    ensures Mirrors(Scan(t, depth, limit), t) <==> !CutOff(t, depth, limit)
    decreases t, 0
  {
    if t.Dir? && depth < limit { AllHiddenIff(t.entries, depth + 1, limit); }
  }

  lemma {:induction false} AllHiddenIff(ts: seq<Fs>, depth: nat, limit: nat)
    requires depth <= limit
    ensures AnyHidden(ScanAll(ts, depth, limit)) <==> CutOffIn(ts, depth, limit)
    ensures MirrorsIn(ScanAll(ts, depth, limit), ts) <==> !CutOffIn(ts, depth, limit)
    decreases ts, 1
  {
    if |ts| > 0 {
      HiddenIff(ts[0], depth, limit);
      AllHiddenIff(ts[1..], depth, limit);
      var n, ns := Scan(ts[0], depth, limit), ScanAll(ts[1..], depth, limit);
      assert ([n] + ns)[1..] == ns;
      HiddenCons(n, ns);
    }
  }

  lemma HiddenCons(n: Node, ns: seq<Node>)
    ensures AnyHidden([n] + ns) <==> n.hasHiddenChildren || AnyHidden(ns)
  {
    if n.hasHiddenChildren { assert ([n] + ns)[0].hasHiddenChildren; }
    if AnyHidden(ns) {
      var i :| 0 <= i < |ns| && ns[i].hasHiddenChildren;
      assert ([n] + ns)[i + 1].hasHiddenChildren;
    }
  }

  /** Without hidden children the reported size is the full recursive size. */
  lemma NothingHiddenIsFull(t: Fs, limit: nat)
    requires !Scan(t, 0, limit).hasHiddenChildren
    ensures Scan(t, 0, limit).size == FullSize(t) && Mirrors(Scan(t, 0, limit), t)
  {
    HiddenIff(t, 0, limit);
    SizeReported(t, 0, limit);
    UncutIsFull(t, 0, limit);
  }

  lemma {:induction false} UncutIsFull(t: Fs, depth: nat, limit: nat)
    requires depth <= limit && !CutOff(t, depth, limit)
    ensures FileBytes(t) + OwnDownTo(t, depth, limit) == FullSize(t)
    decreases t, 0
  {
    if t.Dir? && depth < limit { AllUncutAreFull(t.entries, depth + 1, limit); }
  }

  lemma {:induction false} AllUncutAreFull(ts: seq<Fs>, depth: nat, limit: nat)
    requires depth <= limit && !CutOffIn(ts, depth, limit)
    ensures FileBytesIn(ts) + OwnDownToIn(ts, depth, limit) == FullSizeIn(ts)
    decreases ts, 1
  {
    if |ts| > 0 {
      UncutIsFull(ts[0], depth, limit);
      AllUncutAreFull(ts[1..], depth, limit);
    }
  }
}
