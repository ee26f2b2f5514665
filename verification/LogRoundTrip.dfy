/** Reading the compressed log back: every occurrence is rendered with its family's template, the texts
    are sorted by sequence number, and together they are the log. */
module LogRoundTrip {
  import opened Wrappers
  import opened KeyedSort
  import opened LogTemplate
  import opened LogNormalize
  import opened LogLossless
  import opened LogMarkdown
  import opened LogDedup

  // ----- reconstructing -----

  // One rendered row; no text is the ValueError of render_block.
  function RowOf(template: seq<string>, o: Occurrence): Keyed<Option<string>> {
    Keyed(o.seqNo, Render(Join(template), o.values))
  }

  function RowsOf(template: seq<string>, os: seq<Occurrence>): (r: seq<Keyed<Option<string>>>)
    ensures |r| == |os| && forall i :: 0 <= i < |r| ==> r[i] == RowOf(template, os[i])
  {
    seq(|os|, i requires 0 <= i < |os| => RowOf(template, os[i]))
  }

  function ParsedRows(ps: seq<Parsed>): seq<Keyed<Option<string>>> {
    if |ps| == 0 then [] else ParsedRows(ps[..|ps| - 1]) + RowsOf(ps[|ps| - 1].template, ps[|ps| - 1].occurrences)
  }

  predicate AllRendered(rows: seq<Keyed<Option<string>>>) { forall i :: 0 <= i < |rows| ==> rows[i].value.Some? }

  function Texts(rows: seq<Keyed<Option<string>>>): (r: seq<string>)
    requires AllRendered(rows)
    ensures |r| == |rows| && forall i :: 0 <= i < |r| ==> r[i] == rows[i].value.value
  {
    seq(|rows|, i requires 0 <= i < |rows| => rows[i].value.value)
  }

  // What the reader answers for the parsed families.
  function Read(ps: seq<Parsed>): Option<seq<string>> {
    var rows := ParsedRows(ps);
    if AllRendered(rows) && AllRendered(SortKeyed(rows)) then Some(Texts(SortKeyed(rows))) else None
  }

  // The rows of one family.
  method RenderFamily(p: Parsed) returns (rows: Option<seq<Keyed<Option<string>>>>)
    ensures rows.None? ==> exists j :: 0 <= j < |p.occurrences| && RowOf(p.template, p.occurrences[j]).value.None?
    ensures rows.Some? ==> rows.value == RowsOf(p.template, p.occurrences) && AllRendered(rows.value)
  {
    var rendered := [];
    var j := 0;
    while j < |p.occurrences|
      invariant j <= |p.occurrences| && rendered == RowsOf(p.template, p.occurrences)[..j] && AllRendered(rendered)
    {
      var o := p.occurrences[j];
      var row := Keyed(o.seqNo, Render(Join(p.template), o.values));
      if row.value.None? { return None; }
      rendered := rendered + [row];
      j := j + 1;
    }
    rows := Some(rendered);
  }

  // reconstruct_backend_from_markdown
  method Reconstruct(c: Codec, doc: seq<string>) returns (texts: Option<seq<string>>)
    ensures ParseFamilies(c, doc).None? ==> texts == None
    ensures ParseFamilies(c, doc).Some? ==> texts == Read(ParseFamilies(c, doc).value)
  {
    var families := ParseFamilies(c, doc);
    if families.None? { return None; }
    var ps, rendered := families.value, [];
    var i := 0;
    while i < |ps|
      invariant i <= |ps| && rendered == ParsedRows(ps[..i]) && AllRendered(rendered)
    {
      assert ps[..i + 1][..i] == ps[..i] && ps[..i + 1][i] == ps[i];
      var rows := RenderFamily(ps[i]);
      if rows.None? {
        ghost var j :| 0 <= j < |ps[i].occurrences| && RowOf(ps[i].template, ps[i].occurrences[j]).value.None?;
        NotRendered(ps, i, j);
        return None;
      }
      rendered := rendered + rows.value;
      i := i + 1;
    }
    assert ps[..i] == ps;
    SortKeepsRendered(rendered);
    texts := Some(Texts(SortKeyed(rendered)));
  }

  lemma {:induction false} NotRendered(ps: seq<Parsed>, i: nat, j: nat)
    requires i < |ps| && j < |ps[i].occurrences| && RowOf(ps[i].template, ps[i].occurrences[j]).value.None?
    ensures !AllRendered(ParsedRows(ps))
  {
    var last, before := ps[|ps| - 1], ParsedRows(ps[..|ps| - 1]);
    var rows := RowsOf(last.template, last.occurrences);
    if i == |ps| - 1 {
      assert (before + rows)[|before| + j] == rows[j];
    } else {
      NotRendered(ps[..|ps| - 1], i, j);
      var k :| 0 <= k < |before| && before[k].value.None?;
      assert (before + rows)[k] == before[k];
    }
  }

  // Some bound on the keys.
  function Bound(rows: seq<Keyed<Option<string>>>): (m: nat)
    ensures AtMost(rows, m)
  {
    if |rows| == 0 then 0
    else
      var m := Bound(rows[..|rows| - 1]);
      var k := rows[|rows| - 1].key;
      if k < m then m else k
  }

  lemma SortKeepsRendered(rows: seq<Keyed<Option<string>>>)
    requires AllRendered(rows)
    ensures AllRendered(SortKeyed(rows))
  {
    var sorted := SortKeyed(rows);
    SortSorts(rows, Bound(rows));
    forall i | 0 <= i < |sorted| ensures sorted[i].value.Some? {
      assert sorted[i] in multiset(rows);
    }
  }

  // ----- every block is read back once -----

  // How the reader shows a template.
  type Show = seq<string> -> seq<string>

  // The row of one item as it comes back from the Markdown.
  function BackRow(it: Item, show: Show): Keyed<Option<string>> { RowOf(show(it.template), it.occurrence) }

  function BackRows(items: seq<Item>, show: Show): (r: seq<Keyed<Option<string>>>)
    ensures |r| == |items| && forall i :: 0 <= i < |r| ==> r[i] == BackRow(items[i], show)
  {
    seq(|items|, i requires 0 <= i < |items| => BackRow(items[i], show))
  }

  // The rows of the families in the order of the document, front first.
  function FamilyRows(fs: seq<Family>, show: Show): seq<Keyed<Option<string>>> {
    if |fs| == 0 then [] else RowsOf(show(fs[0].template), fs[0].occurrences) + FamilyRows(fs[1..], show)
  }

  lemma {:induction false} ParsedRowsCons(p: Parsed, ps: seq<Parsed>)
    ensures ParsedRows([p] + ps) == RowsOf(p.template, p.occurrences) + ParsedRows(ps)
  {
    if |ps| == 0 {
      assert [p] + ps == [] + [p];
      RowsSnoc([], p);
    } else {
      var init, last := ps[..|ps| - 1], ps[|ps| - 1];
      var front, mid, back := RowsOf(p.template, p.occurrences), ParsedRows(init), RowsOf(last.template, last.occurrences);
      assert [p] + ps == ([p] + init) + [last];
      RowsSnoc([p] + init, last);
      ParsedRowsCons(p, init);
      assert ParsedRows([p] + ps) == (front + mid) + back && ParsedRows(ps) == mid + back;
      assert (front + mid) + back == front + (mid + back);
    }
  }

  lemma RowsSnoc(ps: seq<Parsed>, p: Parsed)
    ensures ParsedRows(ps + [p]) == ParsedRows(ps) + RowsOf(p.template, p.occurrences)
  {
    assert (ps + [p])[..|ps|] == ps;
  }

  lemma {:induction false} RowsAsShown(fs: seq<Family>, show: Show)
    ensures ParsedRows(ReadAs(fs, show)) == FamilyRows(fs, show)
  {
    if |fs| > 0 {
      RowsAsShown(fs[1..], show);
      ParsedRowsCons(Parsed(show(fs[0].template), fs[0].occurrences), ReadAs(fs[1..], show));
    }
  }

  lemma {:induction false} AddItemAddsRow(fs: seq<Family>, it: Item, show: Show)
    ensures multiset(FamilyRows(AddItem(fs, it), show)) == multiset(FamilyRows(fs, show)) + multiset{BackRow(it, show)}
  {
    if |fs| == 0 {
      assert FamilyRows([Opening(it)], show) == [BackRow(it, show)];
    } else {
      var t, os := show(fs[0].template), fs[0].occurrences;
      if fs[0].template == it.template {
        assert RowsOf(t, os + [it.occurrence]) == RowsOf(t, os) + [BackRow(it, show)];
      } else {
        AddItemAddsRow(fs[1..], it, show);
      }
    }
  }

  lemma BackRowsSnoc(items: seq<Item>, show: Show)
    requires |items| > 0
    ensures multiset(BackRows(items, show)) == multiset(BackRows(items[..|items| - 1], show)) + multiset{BackRow(items[|items| - 1], show)}
  {
    assert BackRows(items, show) == BackRows(items[..|items| - 1], show) + [BackRow(items[|items| - 1], show)];
  }

  /** Grouping loses and repeats nothing: the rows of all families are the rows of all blocks. */
  lemma {:induction false} GroupingKeepsRows(items: seq<Item>, show: Show)
    ensures multiset(FamilyRows(Grouped(items), show)) == multiset(BackRows(items, show))
  {
    if |items| > 0 {
      var init, last := items[..|items| - 1], items[|items| - 1];
      GroupingKeepsRows(init, show);
      AddItemAddsRow(Grouped(init), last, show);
      BackRowsSnoc(items, show);
    }
  }

  predicate Numbered(items: seq<Item>) { forall i :: 0 <= i < |items| ==> items[i].occurrence.seqNo == i + 1 }

  /** Read back, sorted by sequence number, the rows stand in the order of the blocks. */
  lemma ReadGives(items: seq<Item>, show: Show)
    requires Numbered(items)
    ensures Read(ReadAs(Grouped(items), show)) == if AllRendered(BackRows(items, show)) then Some(Texts(BackRows(items, show))) else None
  {
    var rows := FamilyRows(Grouped(items), show);
    RowsAsShown(Grouped(items), show);
    GroupingKeepsRows(items, show);
    SortGives(rows, BackRows(items, show), Bound(rows));
    if AllRendered(BackRows(items, show)) {
      forall i | 0 <= i < |rows| ensures rows[i].value.Some? { assert rows[i] in multiset(BackRows(items, show)); }
    } else {
      var i :| 0 <= i < |items| && BackRows(items, show)[i].value.None?;
      assert BackRows(items, show)[i] in multiset(rows);
      var j :| 0 <= j < |rows| && rows[j] == BackRows(items, show)[i];
    }
  }

  // ----- what becomes of a block -----

  lemma {:induction false} PassKeepsEmpty(t: string, shift: int, ms: seq<Match>, k: nat, name: string, table: Table)
    requires Ahead(t, shift, ms, k)
    ensures Pass(t, shift, ms, k, name, table).0 == "" <==> t == ""
    decreases |ms| - k
  {
    if k < |ms| {
      var lo, hi, key := ms[k].lo + shift, ms[k].hi + shift, NextKey(table, name);
      PassUnfolds(t, shift, ms, k, name, table);
      PassKeepsEmpty(Cut(t, lo, hi, key), shift + |key| + 2 - (hi - lo), ms, k + 1, name, Put(table, name, t[lo..hi]));
    }
  }

  lemma {:induction false} PatternsKeepEmpty(t: string, specs: seq<PatternSpec>, table: Table)
    requires SpecsOk(specs)
    ensures Patterns(t, specs, table).0 == "" <==> t == ""
    decreases |specs|
  {
    if |specs| > 0 {
      FoundAhead(t, specs[0]);
      var r := Pass(t, 0, specs[0].find(t), 0, specs[0].name, table);
      PassKeepsEmpty(t, 0, specs[0].find(t), 0, specs[0].name, table);
      PatternsKeepEmpty(r.0, specs[1..], r.1);
    }
  }

  // A line is normalised to nothing only if it is empty.
  lemma LineKeepsEmpty(g: Grammar, line: string, table: Table)
    requires GrammarOk(g)
    ensures ContentLine(g, line, table).0 == "" <==> line == ""
  {
    if g.process(line).None? && g.cru(line).None? { PatternsKeepEmpty(line, g.patterns, table); }
  }

  predicate EndsEmpty(lines: seq<string>) { |lines| > 0 && lines[|lines| - 1] == "" }

  lemma TemplateEnds(g: Grammar, lines: seq<string>)
    requires GrammarOk(g) && |lines| > 0 && Block(g, lines).Some?
    ensures |Block(g, lines).value.0| == |lines|
    ensures EndsEmpty(Block(g, lines).value.0) <==> EndsEmpty(lines)
    ensures |SplitLines(Block(g, lines).value.0)| > 0
  {
    BlockFollows(g, lines);
    var h := g.header(lines[0]).value;
    var n := |lines| - 1;
    if n == 0 {
      assert lines[1..] == [] && lines[0] == HeaderLine(h);
    } else {
      var start := ContentLine(g, h.message, HeaderTable(h)).1;
      assert lines[1..][..n - 1] == lines[1..n] && lines[1..][n - 1] == lines[n];
      LineKeepsEmpty(g, lines[n], ContentLines(g, lines[1..n], start).1);
    }
  }

  // A block's text comes back, if the reader shows its template in this way.
  ghost predicate ReturnsAs(g: Grammar, b: EventBlock, show: Show)
    requires GrammarOk(g) && IsBlock(g, b)
  {
    BackRow(ItemOf(g, b), show).value == Some(Join(b.rawLines))
  }

  // The reader drops a last empty template line, whatever else.
  ghost predicate ComesBack(g: Grammar, b: EventBlock)
    requires GrammarOk(g) && IsBlock(g, b)
  {
    ReturnsAs(g, b, SplitLines)
  }

  lemma {:induction false} RenderEnds(l: string, r: string, values: Values)
    requires |r| > 0 && r[0] != '>' && !IsKeyChar(r[0])
    ensures Render(l + r, values) == Cat(Render(l, values), Render(r, values))
    decreases |l|
  {
    if |l| == 0 {
      assert l + r == r;
      CatEmpty(Render(r, values));
    } else {
      PlaceholderStaysInside(l, r);
      var n := HeadLength(l);
      assert (l + r)[n..] == l[n..] + r && HeadValue(l + r, values) == HeadValue(l, values);
      RenderEnds(l[n..], r, values);
      CatAssoc(HeadValue(l, values), Render(l[n..], values), Render(r, values));
    }
  }

  lemma DroppedNewline(t: seq<string>, values: Values)
    requires EndsEmpty(t) && |t| > 1
    ensures Render(Join(t), values) == Cat(Render(Join(SplitLines(t)), values), Some("\n"))
  {
    assert Join(t) == Join(SplitLines(t)) + "\n";
    RenderEnds(Join(SplitLines(t)), "\n", values);
    var nl := "\n";
    assert Placeholder(nl).None? && HeadLength(nl) == 1 && nl[1..] == "" && [nl[0]] == nl;
    assert Render("", values) == Some("") && nl + "" == nl;
  }

  /** A block that does not end in an empty line comes back from the Markdown if and only if normalisation
      keeps it exact; one that does, if and only if it renders to its text and one newline more, so never
      when it is kept exact. */
  lemma ComesBackIff(g: Grammar, b: EventBlock)
    requires GrammarOk(g) && IsBlock(g, b)
    ensures !EndsEmpty(b.rawLines) ==> (ComesBack(g, b) <==> Exact(g, b.rawLines))
    ensures EndsEmpty(b.rawLines) ==>
      (ComesBack(g, b) <==> Render(Join(Block(g, b.rawLines).value.0), Block(g, b.rawLines).value.1.values) == Some(Join(b.rawLines) + "\n"))
    ensures Exact(g, b.rawLines) ==> (ComesBack(g, b) <==> !EndsEmpty(b.rawLines))
  {
    var t, values := Block(g, b.rawLines).value.0, Block(g, b.rawLines).value.1.values;
    TemplateEnds(g, b.rawLines);
    if EndsEmpty(t) {
      assert |t| > 1;
      DroppedNewline(t, values);
      var back := Render(Join(SplitLines(t)), values);
      if back.Some? {
        assert |back.value + "\n"| == |back.value| + 1;
        SameEnd(back.value, Join(b.rawLines), "\n");
      }
      assert |Join(b.rawLines) + "\n"| != |Join(b.rawLines)|;
    }
  }

  lemma SameEnd(a: string, b: string, end: string)
    ensures a + end == b + end <==> a == b
  {
    assert |a| == |b| ==> (a + end)[..|a|] == a && (b + end)[..|b|] == b;
  }

  /** For a block without any `<` the condition can be read off the block: it comes back if and only if no
      capture overlaps the token of an earlier pass and it does not end in an empty line. */
  lemma PlainBlockComesBackIff(g: Grammar, b: EventBlock)
    requires GrammarOk(g) && IsBlock(g, b) && Angles(Join(b.rawLines)) == 0
    ensures ComesBack(g, b) <==> Untouched(g, b.rawLines) && !EndsEmpty(b.rawLines)
  {
    ComesBackIff(g, b);
    ExactIffUntouched(g, b.rawLines);
    if EndsEmpty(b.rawLines) && !Untouched(g, b.rawLines) {
      var t, values := Join(Block(g, b.rawLines).value.0), Block(g, b.rawLines).value.1.values;
      BlockFollows(g, b.rawLines);
      if Render(t, values).Some? { LeakShows(t, values); }
      AnglesCat(Join(b.rawLines), "\n");
    }
  }

  // ----- the round trip -----

  ghost predicate FromItems(fs: seq<Family>, items: seq<Item>) {
    forall i :: 0 <= i < |fs| ==> |fs[i].occurrences| > 0 && exists j :: 0 <= j < |items| && items[j].template == fs[i].template
  }

  lemma {:induction false} AddItemTemplates(fs: seq<Family>, it: Item, items: seq<Item>)
    requires FromItems(fs, items) && it in items
    ensures FromItems(AddItem(fs, it), items)
  {
    if |fs| > 0 && fs[0].template != it.template { AddItemTemplates(fs[1..], it, items); }
  }

  lemma {:induction false} GroupedTemplates(items: seq<Item>, n: nat)
    requires n <= |items|
    ensures FromItems(Grouped(items[..n]), items)
  {
    if n > 0 {
      GroupedTemplates(items, n - 1);
      assert items[..n][..n - 1] == items[..n - 1] && items[..n][n - 1] == items[n - 1];
      AddItemTemplates(Grouped(items[..n - 1]), items[n - 1], items);
    }
  }

  lemma FamiliesWritten(g: Grammar, bs: seq<EventBlock>)
    requires GrammarOk(g) && Blocks(g, bs)
    ensures Written(Grouped(ItemsOf(g, bs)))
  {
    var items := ItemsOf(g, bs);
    GroupedTemplates(items, |items|);
    assert items[..|items|] == items;
    var fs := Grouped(items);
    forall i | 0 <= i < |fs| ensures |fs[i].occurrences| > 0 && |SplitLines(fs[i].template)| > 0 {
      var j :| 0 <= j < |items| && items[j].template == fs[i].template;
      assert IsBlock(g, bs[j]);
      TemplateEnds(g, bs[j].rawLines);
    }
  }

  function RawTexts(bs: seq<EventBlock>): (r: seq<string>)
    ensures |r| == |bs| && forall i :: 0 <= i < |r| ==> r[i] == Join(bs[i].rawLines)
  {
    seq(|bs|, i requires 0 <= i < |bs| => Join(bs[i].rawLines))
  }

  lemma {:induction false} JoinCat(a: seq<string>, b: seq<string>)
    requires |a| > 0 && |b| > 0
    ensures Join(a + b) == Join(a) + "\n" + Join(b)
  {
    if |b| == 1 {
      JoinMore(a, b[0]);
      assert a + b == a + [b[0]];
    } else {
      var init, last := b[..|b| - 1], b[|b| - 1];
      JoinCat(a, init);
      JoinMore(a + init, last);
      assert a + b == (a + init) + [last];
    }
  }

  lemma BlocksInit(g: Grammar, bs: seq<EventBlock>)
    requires Blocks(g, bs) && |bs| > 0
    ensures Blocks(g, bs[..|bs| - 1])
  {
  }

  /** The texts of the blocks, joined by newlines, are the log. */
  lemma {:induction false} TextsJoin(g: Grammar, bs: seq<EventBlock>)
    requires Blocks(g, bs) && |bs| > 0
    ensures |Flat(bs)| > 0 && Join(RawTexts(bs)) == Join(Flat(bs))
  {
    var init, last := bs[..|bs| - 1], bs[|bs| - 1];
    assert IsBlock(g, last);
    assert RawTexts(bs) == RawTexts(init) + [Join(last.rawLines)];
    if |bs| == 1 {
      assert Flat(init) == [] && Flat(bs) == last.rawLines && RawTexts(bs) == [Join(last.rawLines)];
    } else {
      BlocksInit(g, bs);
      TextsJoin(g, init);
      JoinCat(Flat(init), last.rawLines);
      JoinMore(RawTexts(init), Join(last.rawLines));
    }
  }

  // The families of a log's blocks; each has occurrences and a template that is not empty.
  ghost function FamiliesOf(g: Grammar, bs: seq<EventBlock>): (fs: seq<Family>)
    requires GrammarOk(g) && Blocks(g, bs)
    ensures Written(fs)
  {
    FamiliesWritten(g, bs);
    Grouped(ItemsOf(g, bs))
  }

  // What the reader makes of the compressed log.
  ghost function ReadBack(g: Grammar, c: Codec, bs: seq<EventBlock>, overview: seq<string>, top: seq<string>, fields: Family -> string): Option<seq<string>>
    requires GrammarOk(g) && Blocks(g, bs)
  {
    var parsed := ParseFamilies(c, RenderMarkdown(c, FamiliesOf(g, bs), overview, top, fields));
    if parsed.None? then None else Read(parsed.value)
  }

  // At most 9999 families, none with the template terminator in its template.
  ghost predicate Readable(g: Grammar, bs: seq<EventBlock>)
    requires GrammarOk(g) && Blocks(g, bs)
  {
    |FamiliesOf(g, bs)| <= 9999 && NoTerminators(FamiliesOf(g, bs))
  }

  /** The whole round trip: for a log split into blocks whose families are at most 9999 and contain no
      template terminator, reading the Markdown gives the text of every block once and in order, and
      so the log, if and only if every block comes back. */
  lemma LogRoundTrips(g: Grammar, c: Codec, lines: seq<string>, first: nat, bs: seq<EventBlock>,
                      overview: seq<string>, top: seq<string>, fields: Family -> string)
    requires GrammarOk(g) && CodecOk(c) && IsSplit(g, lines, first, bs) && |bs| > 0 && Readable(g, bs)
    ensures ReadBack(g, c, bs, overview, top, fields) == Some(RawTexts(bs)) <==> forall i :: 0 <= i < |bs| ==> ComesBack(g, bs[i])
    ensures Join(RawTexts(bs)) == Join(lines)
  {
    var items := ItemsOf(g, bs);
    ReadsBackIff(c, FamiliesOf(g, bs), overview, top, fields);
    ReadGives(items, SplitLines);
    AllReturn(g, bs, items, SplitLines);
    TextsJoin(g, bs);
  }

  lemma AllReturn(g: Grammar, bs: seq<EventBlock>, items: seq<Item>, show: Show)
    requires GrammarOk(g) && Blocks(g, bs) && |items| == |bs| && forall i :: 0 <= i < |bs| ==> items[i] == ItemOf(g, bs[i])
    ensures (AllRendered(BackRows(items, show)) && Texts(BackRows(items, show)) == RawTexts(bs))
            <==> forall i :: 0 <= i < |bs| ==> ReturnsAs(g, bs[i], show)
  {
    var rows := BackRows(items, show);
    if AllRendered(rows) && Texts(rows) == RawTexts(bs) {
      forall i | 0 <= i < |bs| ensures ReturnsAs(g, bs[i], show) {
        assert rows[i].value == Some(Texts(rows)[i]);
      }
    }
    if forall i :: 0 <= i < |bs| ==> ReturnsAs(g, bs[i], show) {
      forall i | 0 <= i < |rows| ensures rows[i].value == Some(RawTexts(bs)[i]) { assert ReturnsAs(g, bs[i], show); }
    }
  }

  // ----- conditions that can be read off the log -----

  lemma {:induction false} PassAngles(t: string, shift: int, ms: seq<Match>, k: nat, name: string, table: Table)
    requires Ahead(t, shift, ms, k)
    ensures Angles(Pass(t, shift, ms, k, name, table).0) == 0 ==> k == |ms|
    decreases |ms| - k
  {
    if k < |ms| {
      var lo, hi, key := ms[k].lo + shift, ms[k].hi + shift, NextKey(table, name);
      PassUnfolds(t, shift, ms, k, name, table);
      CutHasAngle(t, lo, hi, key);
      PassAngles(Cut(t, lo, hi, key), shift + |key| + 2 - (hi - lo), ms, k + 1, name, Put(table, name, t[lo..hi]));
    }
  }

  lemma CutHasAngle(t: string, lo: nat, hi: nat, key: string)
    requires lo <= hi <= |t|
    ensures Angles(Cut(t, lo, hi, key)) > 0
  {
    AnglesCat(t[..lo] + Token(key), t[hi..]);
    AnglesCat(t[..lo], Token(key));
  }

  lemma {:induction false} PatternsPlain(t: string, specs: seq<PatternSpec>, table: Table)
    requires SpecsOk(specs)
    ensures Angles(Patterns(t, specs, table).0) == 0 ==> Patterns(t, specs, table).0 == t
    decreases |specs|
  {
    if |specs| > 0 {
      FoundAhead(t, specs[0]);
      var r := Pass(t, 0, specs[0].find(t), 0, specs[0].name, table);
      PassAngles(t, 0, specs[0].find(t), 0, specs[0].name, table);
      PatternsPlain(r.0, specs[1..], r.1);
    }
  }

  // A line whose normal form holds no `<` is unchanged.
  lemma LinePlain(g: Grammar, line: string, table: Table)
    requires GrammarOk(g)
    ensures Angles(ContentLine(g, line, table).0) == 0 ==> ContentLine(g, line, table).0 == line
  {
    if g.process(line).Some? {
      var p, next := g.process(line).value, Put(table, "PID", g.process(line).value.pid);
      var back := p.middle + Token(NextKey(next, "PROCESS_STATS_JSON"));
      assert ContentLine(g, line, table).0 == p.prefix + Token(NextKey(table, "PID")) + back;
      TokenShows(p.prefix, NextKey(table, "PID"), back);
    } else if g.cru(line).Some? {
      assert ContentLine(g, line, table).0 == g.cru(line).value.prefix + Token(NextKey(table, "CRU_JSON")) + "";
      TokenShows(g.cru(line).value.prefix, NextKey(table, "CRU_JSON"), "");
    } else {
      PatternsPlain(line, g.patterns, table);
    }
  }

  lemma TokenShows(a: string, key: string, b: string)
    ensures Angles(a + Token(key) + b) > 0
  {
    AnglesCat(a + Token(key), b);
    AnglesCat(a, Token(key));
  }

  lemma {:induction false} LinesPlain(g: Grammar, lines: seq<string>, table: Table)
    requires GrammarOk(g)
    ensures var t := ContentLines(g, lines, table).0;
      |t| == |lines| && forall i :: 0 <= i < |lines| && Angles(t[i]) == 0 ==> t[i] == lines[i]
  {
    if |lines| > 0 {
      var init, last := lines[..|lines| - 1], lines[|lines| - 1];
      LinesPlain(g, init, table);
      LinePlain(g, last, ContentLines(g, init, table).1);
    }
  }

  lemma MarksArePlain()
    ensures Angles(FENCE) == 0 && Angles("") == 0 && Angles(FIELDS_MARK) == 0
  {
    NoAngle(FENCE);
    NoAngle(FIELDS_MARK);
  }

  lemma {:induction false} NoAngle(t: string)
    requires '<' !in t
    ensures Angles(t) == 0
  {
    if |t| > 0 { NoAngle(t[1..]); }
  }

  lemma MarkStays(t: seq<string>, lines: seq<string>)
    requires |t| == |lines| && HasMark(t) && forall i :: 0 <= i < |lines| && Angles(t[i]) == 0 ==> t[i] == lines[i]
    ensures HasMark(lines)
  {
    MarksArePlain();
    var i :| 0 <= i && i + 3 <= |t| && t[i] == FENCE && t[i + 1] == "" && t[i + 2] == FIELDS_MARK;
    assert lines[i] == FENCE && lines[i + 1] == "" && lines[i + 2] == FIELDS_MARK;
  }

  // A template has the terminator only where the block has it.
  lemma MarkIsInBlock(g: Grammar, lines: seq<string>)
    requires GrammarOk(g) && |lines| > 0 && Block(g, lines).Some?
    requires |SplitLines(Block(g, lines).value.0)| > 0 && HasMark(SplitLines(Block(g, lines).value.0)[1..])
    ensures HasMark(lines[1..])
  {
    var h := g.header(lines[0]).value;
    var start := ContentLine(g, h.message, HeaderTable(h)).1;
    var t := Block(g, lines).value.0;
    assert t[1..] == ContentLines(g, lines[1..], start).0;
    MarkInWhole(SplitLines(t)[1..], t[1..]);
    LinesPlain(g, lines[1..], start);
    MarkStays(t[1..], lines[1..]);
  }

  lemma MarkInWhole(short: seq<string>, t: seq<string>)
    requires short <= t && HasMark(short)
    ensures HasMark(t)
  {
    var i :| 0 <= i && i + 3 <= |short| && short[i] == FENCE && short[i + 1] == "" && short[i + 2] == FIELDS_MARK;
    assert t[i] == FENCE && t[i + 1] == "" && t[i + 2] == FIELDS_MARK;
  }

  lemma NoMarksNoTerminators(g: Grammar, bs: seq<EventBlock>)
    requires GrammarOk(g) && Blocks(g, bs) && forall i :: 0 <= i < |bs| ==> !HasMark(bs[i].rawLines[1..])
    ensures NoTerminators(FamiliesOf(g, bs))
  {
    var items, fs := ItemsOf(g, bs), FamiliesOf(g, bs);
    GroupedTemplates(items, |items|);
    assert items[..|items|] == items;
    forall i | 0 <= i < |fs| ensures !HasTerminator(fs[i]) {
      var j :| 0 <= j < |items| && items[j].template == fs[i].template;
      assert IsBlock(g, bs[j]);
      if HasTerminator(fs[i]) { MarkIsInBlock(g, bs[j].rawLines); }
    }
  }

  // A block that comes back: captures overlap no token, no placeholder in the text, no empty last line,
  // and none of its lines end a template.
  ghost predicate Safe(g: Grammar, b: EventBlock)
    requires GrammarOk(g) && IsBlock(g, b)
  {
    && Untouched(g, b.rawLines) && StrayFree(g, b.rawLines) && !EndsEmpty(b.rawLines) && !HasMark(b.rawLines[1..])
  }

  /** What the compressor is for, under conditions on the log alone: at most 9999 families, and every block
      safe.  Then reading the Markdown gives every block's text once and in order, and so the log. */
  lemma SafeLogRoundTrips(g: Grammar, c: Codec, lines: seq<string>, first: nat, bs: seq<EventBlock>,
                          overview: seq<string>, top: seq<string>, fields: Family -> string)
    requires GrammarOk(g) && CodecOk(c) && IsSplit(g, lines, first, bs) && |bs| > 0 && |FamiliesOf(g, bs)| <= 9999
    requires forall i :: 0 <= i < |bs| ==> Safe(g, bs[i])
    ensures ReadBack(g, c, bs, overview, top, fields) == Some(RawTexts(bs)) && Join(RawTexts(bs)) == Join(lines)
  {
    NoMarksNoTerminators(g, bs);
    forall i | 0 <= i < |bs| ensures ComesBack(g, bs[i]) {
      assert Safe(g, bs[i]);
      BlockRoundTrip(g, bs[i].rawLines);
      ComesBackIff(g, bs[i]);
    }
    LogRoundTrips(g, c, lines, first, bs, overview, top, fields);
  }

  lemma {:induction false} JoinPlain(lines: seq<string>)
    requires forall i :: 0 <= i < |lines| ==> Angles(lines[i]) == 0
    ensures Angles(Join(lines)) == 0
  {
    if |lines| > 1 {
      var init, last := lines[..|lines| - 1], lines[|lines| - 1];
      JoinPlain(init);
      AnglesCat(Join(init) + "\n", last);
      AnglesCat(Join(init), "\n");
    }
  }

  lemma {:induction false} BlockLinesInLog(bs: seq<EventBlock>, i: nat, j: nat)
    requires i < |bs| && j < |bs[i].rawLines|
    ensures bs[i].rawLines[j] in Flat(bs)
  {
    var init := bs[..|bs| - 1];
    if i < |init| {
      BlockLinesInLog(init, i, j);
      assert bs[i] == init[i];
    } else {
      assert Flat(bs)[|Flat(init)| + j] == bs[i].rawLines[j];
    }
  }

  /** For a log without any `<` the condition is exact: what is read back is the log if and only if no capture
      overlaps the token of an earlier pass and no block ends in an empty line. */
  lemma PlainLogRoundTripsIff(g: Grammar, c: Codec, lines: seq<string>, first: nat, bs: seq<EventBlock>,
                              overview: seq<string>, top: seq<string>, fields: Family -> string)
    requires GrammarOk(g) && CodecOk(c) && IsSplit(g, lines, first, bs) && |bs| > 0 && Readable(g, bs)
    requires forall i :: 0 <= i < |lines| ==> Angles(lines[i]) == 0
    ensures ReadBack(g, c, bs, overview, top, fields) == Some(RawTexts(bs)) <==>
      forall i :: 0 <= i < |bs| ==> Untouched(g, bs[i].rawLines) && !EndsEmpty(bs[i].rawLines)
  {
    LogRoundTrips(g, c, lines, first, bs, overview, top, fields);
    forall i | 0 <= i < |bs| ensures ComesBack(g, bs[i]) <==> Untouched(g, bs[i].rawLines) && !EndsEmpty(bs[i].rawLines) {
      PlainRaw(lines, bs, i);
      PlainBlockComesBackIff(g, bs[i]);
    }
  }

  // ----- the document's own conditions -----

  // The first n lines of a block's template follow its first n lines, whatever comes after.
  lemma {:induction false} PrefixExtends(g: Grammar, lines: seq<string>, n: nat, m: nat)
    requires GrammarOk(g) && 1 <= n <= m <= |lines| && g.header(lines[0]).Some?
    ensures BlockPrefix(g, lines, n).0 <= BlockPrefix(g, lines, m).0
    ensures Extends(BlockPrefix(g, lines, n).1.values, BlockPrefix(g, lines, m).1.values)
  {
    if n < m {
      PrefixExtends(g, lines, n, m - 1);
      var before, after := PrefixOneMore(g, lines, m);
    }
  }

  lemma PrefixOneMore(g: Grammar, lines: seq<string>, m: nat) returns (before: (seq<string>, Table), after: (seq<string>, Table))
    requires GrammarOk(g) && 2 <= m <= |lines| && g.header(lines[0]).Some?
    ensures before == BlockPrefix(g, lines, m - 1) && after == BlockPrefix(g, lines, m)
    ensures before.0 <= after.0 && Extends(before.1.values, after.1.values)
  {
    before, after := BlockPrefix(g, lines, m - 1), BlockPrefix(g, lines, m);
    PrefixGrows(g, lines, m);
    BlockPrefixFollows(g, lines, m - 1);
    LineTracks(g, lines[m - 1], before.1);
  }

  lemma PrefixIsBlock(g: Grammar, lines: seq<string>, n: nat)
    requires GrammarOk(g) && 1 <= n <= |lines| && Block(g, lines).Some?
    ensures |Block(g, lines).value.0| == |lines| && BlockPrefix(g, lines, n).0 == Block(g, lines).value.0[..n]
    ensures Extends(BlockPrefix(g, lines, n).1.values, Block(g, lines).value.1.values)
  {
    PrefixExtends(g, lines, n, |lines|);
    BlockPrefixFollows(g, lines, n);
    BlockFollows(g, lines);
    assert lines[1..|lines|] == lines[1..];
    assert BlockPrefix(g, lines, |lines|) == Block(g, lines).value;
  }

  lemma PlainRendering(t: string, values: Values, more: Values, p: Option<Template>, original: string)
    requires Track(t, values, p, original) && Extends(values, more) && Angles(original) == 0
    ensures Render(t, more).Some? ==> Render(t, more).value == original || Angles(Render(t, more).value) > 0
  {
    if p.Some? {
      ExpandExtends(p.value, values, more);
      NoAngleLiterals(p.value, more);
      RendersToExpansion(p.value, more);
    } else if Render(t, more).Some? {
      LeakExtends(t, values, more);
      LeakShows(t, more);
    }
  }

  lemma ShortIsShorter(lines: seq<string>, n: nat)
    requires 1 <= n < |lines| && Angles(Join(lines)) == 0
    ensures Angles(Join(lines[..n])) == 0 && Join(lines[..n]) != Join(lines)
  {
    var short, rest := lines[..n], lines[n..];
    assert short + rest == lines;
    JoinCat(short, rest);
    ProperStart(Join(lines), Join(short), "\n", Join(rest));
  }

  lemma ProperStart(whole: string, a: string, sep: string, b: string)
    requires whole == a + sep + b && |sep| > 0 && Angles(whole) == 0
    ensures Angles(a) == 0 && a != whole
  {
    AnglesCat(a + sep, b);
    AnglesCat(a, sep);
    assert |whole| == |a| + |sep| + |b|;
  }

  // Cutting lines off a block's template loses text, if the block holds no `<`.
  lemma CutLosesText(g: Grammar, lines: seq<string>, n: nat)
    requires GrammarOk(g) && 1 <= n < |lines| && Block(g, lines).Some? && Angles(Join(lines)) == 0
    ensures |Block(g, lines).value.0| == |lines|
    ensures Render(Join(Block(g, lines).value.0[..n]), Block(g, lines).value.1.values) != Some(Join(lines))
  {
    PrefixIsBlock(g, lines, n);
    BlockPrefixFollows(g, lines, n);
    var short := lines[..n];
    ShortIsShorter(lines, n);
    PlainRendering(Join(Block(g, lines).value.0[..n]), BlockPrefix(g, lines, n).1.values, Block(g, lines).value.1.values,
                   BlockTemplate(g, lines, n), Join(short));
  }

  // The template of the block holds a terminator after its first line.
  ghost predicate Terminates(g: Grammar, b: EventBlock)
    requires GrammarOk(g) && IsBlock(g, b)
  {
    var u := SplitLines(Block(g, b.rawLines).value.0);
    |u| > 0 && HasMark(u[1..])
  }

  lemma TerminatedIsLost(g: Grammar, b: EventBlock)
    requires GrammarOk(g) && IsBlock(g, b) && Angles(Join(b.rawLines)) == 0
    ensures ReturnsAs(g, b, Shown) <==> ComesBack(g, b) && !Terminates(g, b)
  {
    TemplateEnds(g, b.rawLines);
    var t := Block(g, b.rawLines).value.0;
    var f := Family(t, "", "", []);
    ShownWhole(f);
    if HasTerminator(f) {
      var shown := Shown(t);
      assert shown == t[..|shown|] && 1 <= |shown| < |t|;
      CutLosesText(g, b.rawLines, |shown|);
    }
  }

  // ----- how many rows are read -----

  function CountRows(fs: seq<Family>): nat { if |fs| == 0 then 0 else |fs[0].occurrences| + CountRows(fs[1..]) }

  lemma {:induction false} RowsAreCounted(fs: seq<Family>, show: Show)
    ensures |FamilyRows(fs, show)| == CountRows(fs)
  {
    if |fs| > 0 { RowsAreCounted(fs[1..], show); }
  }

  lemma {:induction false} FewerFamiliesFewerRows(fs: seq<Family>, k: nat)
    requires Written(fs) && k <= |fs|
    ensures CountRows(fs[..k]) <= CountRows(fs) && (k < |fs| ==> CountRows(fs[..k]) < CountRows(fs))
  {
    if k > 0 {
      FewerFamiliesFewerRows(fs[1..], k - 1);
      assert fs[..k][1..] == fs[1..][..k - 1];
    } else {
      assert fs[..0] == [];
    }
  }

  lemma TextsAreRows(fs: seq<Family>, show: Show)
    ensures Read(ReadAs(fs, show)).Some? ==> |Read(ReadAs(fs, show)).value| == CountRows(fs)
  {
    var rows := FamilyRows(fs, show);
    RowsAsShown(fs, show);
    RowsAreCounted(fs, show);
    SortSorts(rows, Bound(rows));
    assert |multiset(SortKeyed(rows))| == |multiset(rows)|;
  }

  lemma GroupedCount(items: seq<Item>)
    ensures CountRows(Grouped(items)) == |items|
  {
    GroupingKeepsRows(items, SplitLines);
    RowsAreCounted(Grouped(items), SplitLines);
    assert |multiset(FamilyRows(Grouped(items), SplitLines))| == |multiset(BackRows(items, SplitLines))|;
  }

  // No line of the log has the form of one of the document's own: a heading, or the opening of the occurrences.
  ghost predicate Unforged(bs: seq<EventBlock>, fields: Family -> string) {
    && (forall i :: 0 <= i < |bs| ==> NoHeading(bs[i].rawLines) && !HasOpening(bs[i].rawLines))
    && forall f :: !IsHeading(fields(f))
  }

  // A template line without `<` is the block's line; the first line starts with a bracket.
  lemma TemplatePlain(g: Grammar, lines: seq<string>)
    requires GrammarOk(g) && |lines| > 0 && Block(g, lines).Some?
    ensures var t := Block(g, lines).value.0;
      && |t| == |lines| && |t[0]| > 0 && t[0][0] == '['
      && forall i :: 1 <= i < |t| && Angles(t[i]) == 0 ==> t[i] == lines[i]
  {
    var h, t := g.header(lines[0]).value, Block(g, lines).value.0;
    var start := ContentLine(g, h.message, HeaderTable(h)).1;
    LinesPlain(g, lines[1..], start);
    forall i | 1 <= i < |t| && Angles(t[i]) == 0 ensures t[i] == lines[i] {
      assert t[1..][i - 1] == t[i] && lines[1..][i - 1] == lines[i] && t[1..] == ContentLines(g, lines[1..], start).0;
    }
  }

  lemma HeadingIsPlain(line: string)
    requires IsHeading(line)
    ensures Angles(line) == 0 && line[0] == '#'
  {
    assert line[..5] == "### F" && forall i :: 0 <= i < 5 ==> line[i] == line[..5][i];
    assert forall i :: 0 <= i < 9 ==> line[i] != '<';
    NoAngle(line);
  }

  lemma TemplateHasNoHeading(g: Grammar, lines: seq<string>)
    requires GrammarOk(g) && |lines| > 0 && Block(g, lines).Some? && NoHeading(lines)
    ensures NoHeading(Block(g, lines).value.0)
  {
    TemplatePlain(g, lines);
    var t := Block(g, lines).value.0;
    forall i | 0 <= i < |t| ensures !IsHeading(t[i]) {
      if IsHeading(t[i]) { HeadingIsPlain(t[i]); }
    }
  }

  // The lines that open the occurrences hold no `<`.
  lemma OpeningIsPlain(line: string)
    requires line == "" || line == OCCURRENCES_MARK || line == JSONL
    ensures Angles(line) == 0
  {
    assert '<' !in line;
    NoAngle(line);
  }

  lemma TemplateHasNoOpening(g: Grammar, lines: seq<string>)
    requires GrammarOk(g) && |lines| > 0 && Block(g, lines).Some?
    ensures HasOpening(SplitLines(Block(g, lines).value.0)) ==> HasOpening(lines)
  {
    TemplatePlain(g, lines);
    var t := SplitLines(Block(g, lines).value.0);
    if HasOpening(t) {
      var i :| 0 <= i && i + 3 <= |t| && t[i] == "" && t[i + 1] == OCCURRENCES_MARK && t[i + 2] == JSONL;
      OpeningIsPlain(t[i]);
      OpeningIsPlain(t[i + 1]);
      OpeningIsPlain(t[i + 2]);
      assert i > 0 && lines[i] == "" && lines[i + 1] == OCCURRENCES_MARK && lines[i + 2] == JSONL;
    }
  }

  // A family's template is that of one of the blocks.
  lemma TemplateOf(g: Grammar, bs: seq<EventBlock>, i: nat) returns (j: nat)
    requires GrammarOk(g) && Blocks(g, bs) && i < |FamiliesOf(g, bs)|
    ensures j < |bs| && IsBlock(g, bs[j]) && FamiliesOf(g, bs)[i].template == Block(g, bs[j].rawLines).value.0
  {
    var items := ItemsOf(g, bs);
    GroupedTemplates(items, |items|);
    assert items[..|items|] == items;
    j :| 0 <= j < |items| && items[j].template == FamiliesOf(g, bs)[i].template;
  }

  lemma UnforgedFamilies(g: Grammar, bs: seq<EventBlock>, fields: Family -> string)
    requires GrammarOk(g) && Blocks(g, bs) && Unforged(bs, fields)
    ensures NoOpenings(FamiliesOf(g, bs)) && NoForgedHeadings(FamiliesOf(g, bs), fields)
  {
    var fs := FamiliesOf(g, bs);
    forall i | 0 <= i < |fs| ensures !HasOpening(SplitLines(fs[i].template)) && NoHeading(fs[i].template) {
      var j := TemplateOf(g, bs, i);
      TemplateHasNoOpening(g, bs[j].rawLines);
      TemplateHasNoHeading(g, bs[j].rawLines);
    }
  }

  // Every template of a block is the template of a family, and the other way round.
  lemma {:induction false} GroupedHolds(items: seq<Item>, j: nat)
    requires j < |items|
    ensures exists i :: 0 <= i < |Grouped(items)| && Grouped(items)[i].template == items[j].template
  {
    var init, last := items[..|items| - 1], items[|items| - 1];
    if j < |init| {
      assert init[j] == items[j];
      GroupedHolds(init, j);
      var i :| 0 <= i < |Grouped(init)| && Grouped(init)[i].template == init[j].template;
      AddItemKeeps(Grouped(init), last, i);
      assert Grouped(items)[i].template == items[j].template;
    } else {
      AddItemHas(Grouped(init), last);
      var i :| 0 <= i < |AddItem(Grouped(init), last)| && AddItem(Grouped(init), last)[i].template == last.template;
      assert Grouped(items)[i].template == items[j].template;
    }
  }

  lemma {:induction false} AddItemKeeps(fs: seq<Family>, it: Item, i: nat)
    requires i < |fs|
    ensures i < |AddItem(fs, it)| && AddItem(fs, it)[i].template == fs[i].template
  {
    if fs[0].template != it.template && i > 0 { AddItemKeeps(fs[1..], it, i - 1); }
  }

  lemma {:induction false} AddItemHas(fs: seq<Family>, it: Item)
    ensures exists i :: 0 <= i < |AddItem(fs, it)| && AddItem(fs, it)[i].template == it.template
  {
    if |fs| == 0 || fs[0].template == it.template {
      assert AddItem(fs, it)[0].template == it.template;
    } else {
      AddItemHas(fs[1..], it);
      var i :| 0 <= i < |AddItem(fs[1..], it)| && AddItem(fs[1..], it)[i].template == it.template;
      assert AddItem(fs, it)[i + 1] == AddItem(fs[1..], it)[i];
    }
  }

  lemma TerminatorsIff(g: Grammar, bs: seq<EventBlock>)
    requires GrammarOk(g) && Blocks(g, bs)
    ensures NoTerminators(FamiliesOf(g, bs)) <==> forall j :: 0 <= j < |bs| ==> !Terminates(g, bs[j])
  {
    var items, fs := ItemsOf(g, bs), FamiliesOf(g, bs);
    if NoTerminators(fs) {
      forall j | 0 <= j < |bs| ensures !Terminates(g, bs[j]) {
        GroupedHolds(items, j);
        var i :| 0 <= i < |fs| && fs[i].template == items[j].template;
        assert !HasTerminator(fs[i]);
      }
    }
    if forall j :: 0 <= j < |bs| ==> !Terminates(g, bs[j]) {
      forall i | 0 <= i < |fs| ensures !HasTerminator(fs[i]) {
        var j := TemplateOf(g, bs, i);
        assert !Terminates(g, bs[j]);
      }
    }
  }

  // What is read back when no line of the log passes for one of the document's.
  lemma UnforgedReadBack(g: Grammar, c: Codec, lines: seq<string>, first: nat, bs: seq<EventBlock>,
                         overview: seq<string>, top: seq<string>, fields: Family -> string)
    requires GrammarOk(g) && CodecOk(c) && IsSplit(g, lines, first, bs) && |bs| > 0 && Unforged(bs, fields)
    ensures ReadBack(g, c, bs, overview, top, fields) == Some(RawTexts(bs)) <==>
      |FamiliesOf(g, bs)| <= 9999 && forall i :: 0 <= i < |bs| ==> ReturnsAs(g, bs[i], Shown)
  {
    var items, fs := ItemsOf(g, bs), FamiliesOf(g, bs);
    UnforgedFamilies(g, bs, fields);
    ReadsBackAs(c, fs, overview, top, fields);
    if |fs| <= 9999 {
      ReadGives(items, Shown);
      AllReturn(g, bs, items, Shown);
    } else {
      GroupedCount(items);
      FewerFamiliesFewerRows(fs, 9999);
      TextsAreRows(fs[..9999], Shown);
    }
  }

  /** For a log without any `<`, none of whose lines passes for a heading or for the opening of the occurrences,
      the whole condition is exact: what is read back is the log if and only if there are at most 9999
      families, no template holds a terminator, no capture overlaps the token of an earlier pass, and no
      block ends in an empty line. */
  lemma UnforgedLogRoundTripsIff(g: Grammar, c: Codec, lines: seq<string>, first: nat, bs: seq<EventBlock>,
                                 overview: seq<string>, top: seq<string>, fields: Family -> string)
    requires GrammarOk(g) && CodecOk(c) && IsSplit(g, lines, first, bs) && |bs| > 0 && Unforged(bs, fields)
    requires forall i :: 0 <= i < |lines| ==> Angles(lines[i]) == 0
    ensures ReadBack(g, c, bs, overview, top, fields) == Some(RawTexts(bs)) <==>
      Readable(g, bs) && forall i :: 0 <= i < |bs| ==> Untouched(g, bs[i].rawLines) && !EndsEmpty(bs[i].rawLines)
  {
    UnforgedReadBack(g, c, lines, first, bs, overview, top, fields);
    TerminatorsIff(g, bs);
    forall i | 0 <= i < |bs|
      ensures ReturnsAs(g, bs[i], Shown) <==> Untouched(g, bs[i].rawLines) && !EndsEmpty(bs[i].rawLines) && !Terminates(g, bs[i]) {
      PlainRaw(lines, bs, i);
      PlainBlockComesBackIff(g, bs[i]);
      TerminatedIsLost(g, bs[i]);
    }
  }

  lemma PlainRaw(lines: seq<string>, bs: seq<EventBlock>, i: nat)
    requires Flat(bs) == lines && i < |bs| && forall j :: 0 <= j < |lines| ==> Angles(lines[j]) == 0
    ensures Angles(Join(bs[i].rawLines)) == 0
  {
    var raw := bs[i].rawLines;
    forall j | 0 <= j < |raw| ensures Angles(raw[j]) == 0 { BlockLinesInLog(bs, i, j); }
    JoinPlain(raw);
  }
}
