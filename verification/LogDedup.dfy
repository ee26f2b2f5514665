/** The compressor end to end: split the backend log into blocks, group equal templates, write Markdown,
    read it, render every occurrence and sort by sequence number. */
module LogDedup {
  import opened Wrappers
  import opened LogTemplate
  import opened LogNormalize
  import opened LogLossless
  import opened LogMarkdown
  import opened KeyedSort

  datatype EventBlock = EventBlock(seqNo: nat, startLine: nat, rawLines: seq<string>, header: Header)

  // ----- splitting -----

  function Flat(bs: seq<EventBlock>): seq<string> {
    if |bs| == 0 then [] else Flat(bs[..|bs| - 1]) + bs[|bs| - 1].rawLines
  }

  // A block is a header line and the lines up to the next header.
  predicate IsBlock(g: Grammar, b: EventBlock) {
    && |b.rawLines| > 0 && g.isHeader(b.rawLines[0]) && g.header(b.rawLines[0]) == Some(b.header)
    && forall j :: 1 <= j < |b.rawLines| ==> !g.isHeader(b.rawLines[j])
  }

  /** The blocks are the log, cut before every header line and numbered from 1. */
  predicate IsSplit(g: Grammar, lines: seq<string>, first: nat, bs: seq<EventBlock>) {
    && Flat(bs) == lines
    && forall i :: 0 <= i < |bs| ==> IsBlock(g, bs[i]) && bs[i].seqNo == i + 1 && bs[i].startLine == first + |Flat(bs[..i])|
  }

  // Every line the quick test takes for a header also parses as one.
  predicate HeadersParse(g: Grammar, lines: seq<string>) {
    forall i :: 0 <= i < |lines| && g.isHeader(lines[i]) ==> g.header(lines[i]).Some?
  }

  lemma SplitMore(g: Grammar, lines: seq<string>, first: nat, bs: seq<EventBlock>, b: EventBlock, current: seq<string>)
    requires IsSplit(g, lines, first, bs) && IsBlock(g, b) && b.rawLines == current
    requires b.seqNo == |bs| + 1 && b.startLine == first + |lines|
    ensures IsSplit(g, lines + current, first, bs + [b])
  {
    assert (bs + [b])[..|bs|] == bs;
    forall i | 0 <= i < |bs + [b]| ensures (bs + [b])[i].startLine == first + |Flat((bs + [b])[..i])| {
      if i < |bs| { assert (bs + [b])[..i] == bs[..i]; }
    }
  }

  // make_block; None is its ValueError.
  function MakeBlock(g: Grammar, seqNo: nat, startLine: nat, rawLines: seq<string>): Option<EventBlock>
    requires |rawLines| > 0
  {
    if g.header(rawLines[0]).None? then None else Some(EventBlock(seqNo, startLine, rawLines, g.header(rawLines[0]).value))
  }

  // A header line and lines that are none.
  predicate Opened(g: Grammar, current: seq<string>) {
    |current| > 0 && g.isHeader(current[0]) && forall j :: 1 <= j < |current| ==> !g.isHeader(current[j])
  }

  // The first n lines are split, up to the lines still being collected.
  ghost predicate Parsing(g: Grammar, lines: seq<string>, first: nat, n: nat, blocks: seq<EventBlock>, current: seq<string>, start: int) {
    && |current| <= n <= |lines| && start == first + n - |current| && current == lines[n - |current|..n]
    && IsSplit(g, lines[..n - |current|], first, blocks) && HeadersParse(g, lines[..n - |current|])
    && (n > 0 ==> Opened(g, current) && g.isHeader(lines[0]))
  }

  lemma HeadersGrow(g: Grammar, before: seq<string>, current: seq<string>)
    requires HeadersParse(g, before) && Opened(g, current) && g.header(current[0]).Some?
    ensures HeadersParse(g, before + current)
  {
  }

  lemma Opens(g: Grammar, lines: seq<string>, first: nat, n: nat, blocks: seq<EventBlock>)
    requires n < |lines| && g.isHeader(lines[n]) && g.isHeader(lines[0]) && IsSplit(g, lines[..n], first, blocks) && HeadersParse(g, lines[..n])
    ensures Parsing(g, lines, first, n + 1, blocks, [lines[n]], first + n)
  {
  }

  lemma Continues(g: Grammar, lines: seq<string>, first: nat, n: nat, blocks: seq<EventBlock>, current: seq<string>, start: nat)
    requires Parsing(g, lines, first, n, blocks, current, start) && n < |lines| && !g.isHeader(lines[n]) && |current| > 0
    ensures Parsing(g, lines, first, n + 1, blocks, current + [lines[n]], start)
  {
  }

  // The block collected so far is closed and appended; None is the ValueError of make_block.
  method CloseBlock(g: Grammar, lines: seq<string>, first: nat, n: nat, blocks: seq<EventBlock>, current: seq<string>, start: nat)
    returns (r: Option<seq<EventBlock>>)
    requires Parsing(g, lines, first, n, blocks, current, start) && n > 0
    ensures r.None? ==> !HeadersParse(g, lines)
    ensures r.Some? ==> |r.value| > 0 && IsSplit(g, lines[..n], first, r.value) && HeadersParse(g, lines[..n])
  {
    var block := MakeBlock(g, |blocks| + 1, start, current);
    ghost var before := lines[..n - |current|];
    assert current[0] == lines[n - |current|];
    if block.None? { return None; }
    HeadersGrow(g, before, current);
    SplitMore(g, before, first, blocks, block.value, current);
    assert before + current == lines[..n];
    r := Some(blocks + [block.value]);
  }

  /** parse_blocks.  It raises for an empty log, a log that does not start with a header, and a header
      line that does not parse; otherwise it loses nothing. */
  method ParseBlocks(g: Grammar, lines: seq<string>, first: nat) returns (r: Option<seq<EventBlock>>)
    ensures r.Some? <==> |lines| > 0 && g.isHeader(lines[0]) && HeadersParse(g, lines)
    ensures r.Some? ==> |r.value| > 0 && IsSplit(g, lines, first, r.value)
  {
    var blocks, current, start := [], [], first;
    var offset := 0;
    while offset < |lines|
      invariant offset <= |lines| && Parsing(g, lines, first, offset, blocks, current, start)
    {
      var line := lines[offset];
      if g.isHeader(line) {
        if |current| > 0 {
          var closed := CloseBlock(g, lines, first, offset, blocks, current, start);
          if closed.None? { return None; }
          blocks := closed.value;
        }
        current := [line];
        start := first + offset;
        Opens(g, lines, first, offset, blocks);
      } else {
        if |current| == 0 { return None; }
        Continues(g, lines, first, offset, blocks, current, start);
        current := current + [line];
      }
      offset := offset + 1;
    }
    if |current| == 0 { return None; }
    r := CloseBlock(g, lines, first, offset, blocks, current, start);
    assert lines[..offset] == lines;
  }

  // ----- grouping -----

  datatype Item = Item(template: seq<string>, level: string, logger: string, occurrence: Occurrence)

  ghost function ItemOf(g: Grammar, b: EventBlock): Item
    requires GrammarOk(g) && IsBlock(g, b)
  {
    var n := Block(g, b.rawLines).value;
    Item(n.0, b.header.level, b.header.logger, Occurrence(b.seqNo, b.startLine, n.1.values))
  }

  ghost predicate Blocks(g: Grammar, bs: seq<EventBlock>) { forall i :: 0 <= i < |bs| ==> IsBlock(g, bs[i]) }

  ghost function ItemsOf(g: Grammar, bs: seq<EventBlock>): (r: seq<Item>)
    requires GrammarOk(g) && Blocks(g, bs)
    ensures |r| == |bs| && forall i :: 0 <= i < |r| ==> r[i] == ItemOf(g, bs[i])
  {
    seq(|bs|, i requires 0 <= i < |bs| => ItemOf(g, bs[i]))
  }

  function AddItem(fs: seq<Family>, it: Item): seq<Family> {
    if |fs| == 0 then [Family(it.template, it.level, it.logger, [it.occurrence])]
    else if fs[0].template == it.template then [fs[0].(occurrences := fs[0].occurrences + [it.occurrence])] + fs[1..]
    else [fs[0]] + AddItem(fs[1..], it)
  }

  function Grouped(items: seq<Item>): seq<Family> {
    if |items| == 0 then [] else AddItem(Grouped(items[..|items| - 1]), items[|items| - 1])
  }

  predicate DistinctTemplates(fs: seq<Family>) { forall i, j :: 0 <= i < j < |fs| ==> fs[i].template != fs[j].template }

  lemma {:induction false} AddToKnown(fs: seq<Family>, it: Item, k: nat)
    requires k < |fs| && fs[k].template == it.template && DistinctTemplates(fs)
    ensures AddItem(fs, it) == fs[k := fs[k].(occurrences := fs[k].occurrences + [it.occurrence])]
  {
    if k > 0 { AddToKnown(fs[1..], it, k - 1); }
  }

  lemma {:induction false} AddNew(fs: seq<Family>, it: Item)
    requires forall i :: 0 <= i < |fs| ==> fs[i].template != it.template
    ensures AddItem(fs, it) == fs + [Family(it.template, it.level, it.logger, [it.occurrence])]
  {
    if |fs| > 0 { AddNew(fs[1..], it); }
  }

  // Every family has an occurrence, none numbered beyond n, and they are in order of their first.
  predicate InFirstOrder(fs: seq<Family>, n: nat) {
    && (forall i :: 0 <= i < |fs| ==> |fs[i].occurrences| > 0 && 1 <= fs[i].occurrences[0].seqNo <= n)
    && (forall i, j :: 0 <= i < j < |fs| ==> fs[i].occurrences[0].seqNo < fs[j].occurrences[0].seqNo)
  }

  function ByFirst(fs: seq<Family>): (r: seq<Keyed<Family>>)
    requires forall i :: 0 <= i < |fs| ==> |fs[i].occurrences| > 0
    ensures |r| == |fs| && forall i :: 0 <= i < |r| ==> r[i] == Keyed(fs[i].occurrences[0].seqNo, fs[i])
  {
    seq(|fs|, i requires 0 <= i < |fs| => Keyed(fs[i].occurrences[0].seqNo, fs[i]))
  }

  // Where each template is among the families so far.
  ghost predicate Placed(fs: seq<Family>, place: map<seq<string>, nat>) {
    && DistinctTemplates(fs)
    && (forall t :: t in place ==> place[t] < |fs| && fs[place[t]].template == t)
    && (forall i :: 0 <= i < |fs| ==> fs[i].template in place)
  }

  function Opening(it: Item): Family { Family(it.template, it.level, it.logger, [it.occurrence]) }
  function Joining(f: Family, it: Item): Family { f.(occurrences := f.occurrences + [it.occurrence]) }

  lemma PlaceOne(fs: seq<Family>, place: map<seq<string>, nat>, it: Item)
    requires Placed(fs, place)
    ensures it.template in place ==>
      var k := place[it.template]; k < |fs| && AddItem(fs, it) == fs[k := Joining(fs[k], it)] && Placed(AddItem(fs, it), place)
    ensures it.template !in place ==>
      AddItem(fs, it) == fs + [Opening(it)] && Placed(AddItem(fs, it), place[it.template := |fs|])
  {
    if it.template in place { AddToKnown(fs, it, place[it.template]); } else { AddNew(fs, it); }
  }

  lemma {:induction false} AddKeepsOrder(fs: seq<Family>, it: Item, n: nat)
    requires InFirstOrder(fs, n) && it.occurrence.seqNo == n + 1
    ensures InFirstOrder(AddItem(fs, it), n + 1)
    ensures |fs| > 0 ==> |AddItem(fs, it)| > 0 && AddItem(fs, it)[0].occurrences[0] == fs[0].occurrences[0]
  {
    if |fs| > 0 && fs[0].template != it.template {
      AddKeepsOrder(fs[1..], it, n);
      FirstIsLeast(fs, it, n);
    }
  }

  lemma {:induction false} FirstIsLeast(fs: seq<Family>, it: Item, n: nat)
    requires |fs| > 0 && InFirstOrder(fs, n) && it.occurrence.seqNo == n + 1 && InFirstOrder(AddItem(fs[1..], it), n + 1)
    ensures forall j :: 0 <= j < |AddItem(fs[1..], it)| ==> fs[0].occurrences[0].seqNo < AddItem(fs[1..], it)[j].occurrences[0].seqNo
  {
    var rest := AddItem(fs[1..], it);
    if |fs| > 1 {
      AddHead(fs[1..], it);
      assert rest[0].occurrences[0] == fs[1].occurrences[0];
    } 
  }

  lemma AddHead(fs: seq<Family>, it: Item)
    requires |fs| > 0 && |fs[0].occurrences| > 0
    ensures |AddItem(fs, it)| > 0 && |AddItem(fs, it)[0].occurrences| > 0 && AddItem(fs, it)[0].occurrences[0] == fs[0].occurrences[0]
  {
  }

  lemma ItemsGrow(g: Grammar, bs: seq<EventBlock>, n: nat)
    requires GrammarOk(g) && Blocks(g, bs) && n < |bs|
    ensures ItemsOf(g, bs[..n + 1]) == ItemsOf(g, bs[..n]) + [ItemOf(g, bs[n])]
    ensures Grouped(ItemsOf(g, bs[..n + 1])) == AddItem(Grouped(ItemsOf(g, bs[..n])), ItemOf(g, bs[n]))
  {
    assert bs[..n + 1][..n] == bs[..n] && bs[..n + 1][n] == bs[n];
    var items, it := ItemsOf(g, bs[..n]), ItemOf(g, bs[n]);
    assert (items + [it])[..|items|] == items;
  }

  // The families of the first n blocks, and where each template is among them.
  ghost predicate Grouping(g: Grammar, bs: seq<EventBlock>, n: nat, fs: seq<Family>, place: map<seq<string>, nat>)
    requires GrammarOk(g) && Blocks(g, bs)
  {
    n <= |bs| && fs == Grouped(ItemsOf(g, bs[..n])) && Placed(fs, place) && InFirstOrder(fs, n)
  }

  lemma GroupOne(g: Grammar, bs: seq<EventBlock>, n: nat, fs: seq<Family>, place: map<seq<string>, nat>)
    requires GrammarOk(g) && Blocks(g, bs) && n < |bs| && Grouping(g, bs, n, fs, place) && bs[n].seqNo == n + 1
    ensures var it := ItemOf(g, bs[n]);
      Grouping(g, bs, n + 1, AddItem(fs, it), if it.template in place then place else place[it.template := |fs|])
  {
    var it := ItemOf(g, bs[n]);
    PlaceOne(fs, place, it);
    AddKeepsOrder(fs, it, n);
    ItemsGrow(g, bs, n);
  }

  // One turn of the loop, on the dictionary of families.
  method AddToFamilies(fs: seq<Family>, place: map<seq<string>, nat>, it: Item) returns (families: seq<Family>, places: map<seq<string>, nat>)
    requires Placed(fs, place)
    ensures families == AddItem(fs, it) && places == if it.template in place then place else place[it.template := |fs|]
  {
    PlaceOne(fs, place, it);
    if it.template in place {
      var k := place[it.template];
      families, places := fs[k := Joining(fs[k], it)], place;
    } else {
      families, places := fs + [Opening(it)], place[it.template := |fs|];
    }
  }

  /** build_families: blocks with equal templates form one family, families stand in order of their
      first block, and the final sort by that block changes nothing. */
  method BuildFamilies(g: Grammar, bs: seq<EventBlock>) returns (families: seq<Family>)
    requires GrammarOk(g) && Blocks(g, bs) && forall i :: 0 <= i < |bs| ==> bs[i].seqNo == i + 1
    ensures families == Grouped(ItemsOf(g, bs)) && DistinctTemplates(families) && InFirstOrder(families, |bs|)
  {
    var place: map<seq<string>, nat> := map[];
    families := [];
    var n := 0;
    while n < |bs|
      invariant n <= |bs| && Grouping(g, bs, n, families, place)
    {
      var it := Normalise(g, bs[n]);
      GroupOne(g, bs, n, families, place);
      families, place := AddToFamilies(families, place, it);
      n := n + 1;
    }
    assert bs[..n] == bs;
    families := SortedByFirst(families, n);
  }

  method Normalise(g: Grammar, b: EventBlock) returns (it: Item)
    requires GrammarOk(g) && IsBlock(g, b)
    ensures it == ItemOf(g, b)
  {
    var normal := TokenTable.NormalizeBlock(g, b.rawLines);
    it := Item(normal.value.0, b.header.level, b.header.logger, Occurrence(b.seqNo, b.startLine, normal.value.1));
  }

  // sorted(..., key=first_seq)
  method SortedByFirst(fs: seq<Family>, n: nat) returns (sorted: seq<Family>)
    requires InFirstOrder(fs, n)
    ensures sorted == fs
  {
    SortOfSorted(ByFirst(fs));
    sorted := Payloads(SortKeyed(ByFirst(fs)));
    assert sorted == fs;
  }
}
