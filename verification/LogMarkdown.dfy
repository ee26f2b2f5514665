/** The Markdown form of the compressed log, line by line.  The reader is one regular expression with
    lazy gaps; because every gap is followed by a fixed text, it is a chain of first occurrences:
    heading, template mark, field mark, occurrence mark, closing fence. */
module LogMarkdown {
  import opened Wrappers
  import opened LogTemplate

  datatype Occurrence = Occurrence(seqNo: nat, startLine: nat, values: Values)
  datatype Family = Family(template: seq<string>, level: string, logger: string, occurrences: seq<Occurrence>)
  datatype Parsed = Parsed(template: seq<string>, occurrences: seq<Occurrence>)

  // json.dumps and json.loads of one occurrence row.
  datatype Codec = Codec(dump: Occurrence -> string, load: string -> Option<Occurrence>)

  ghost predicate CodecOk(c: Codec) {
    forall o: Occurrence :: c.load(c.dump(o)) == Some(o) && |c.dump(o)| > 0 && c.dump(o)[0] == '{'
  }

  // ----- writing -----

  const FENCE := "```"
  const TEXT := "```text"
  const JSONL := "```jsonl"
  const TEMPLATE_MARK := "#### Template"
  const FIELDS_MARK := "#### Fields"
  const OCCURRENCES_MARK := "#### Occurrences"

  // str.splitlines of lines joined by newlines: a last empty line disappears.
  function SplitLines(t: seq<string>): seq<string> {
    if |t| > 0 && t[|t| - 1] == "" then t[..|t| - 1] else t
  }

  // f"F{index:04d}" in a heading
  function Heading(index: nat): string {
    "### F" + (if index < 10 then "000" else if index < 100 then "00" else if index < 1000 then "0" else "") + Decimal(index)
  }

  function Timestamp(o: Occurrence): string { if "TIMESTAMP_1" in o.values then o.values["TIMESTAMP_1"] else "" }

  function Facts(f: Family): seq<string>
    requires |f.occurrences| > 0
  {
    var first, last := f.occurrences[0], f.occurrences[|f.occurrences| - 1];
    ["- Count: " + Decimal(|f.occurrences|),
     "- First seq: " + Decimal(first.seqNo), "- Last seq: " + Decimal(last.seqNo),
     "- First line: " + Decimal(first.startLine), "- Last line: " + Decimal(last.startLine),
     "- First timestamp: `" + Timestamp(first) + "`", "- Last timestamp: `" + Timestamp(last) + "`",
     "- Logger: `" + f.logger + "`", "- Level: `" + f.level + "`"]
  }

  function Rows(c: Codec, os: seq<Occurrence>): (r: seq<string>)
    ensures |r| == |os| && forall i :: 0 <= i < |r| ==> r[i] == c.dump(os[i])
  {
    seq(|os|, i requires 0 <= i < |os| => c.dump(os[i]))
  }

  // fields is the line listing the placeholder names.
  function FamilyLines(c: Codec, f: Family, index: nat, fields: string): seq<string>
    requires |f.occurrences| > 0
  {
    [Heading(index)] + Facts(f) + ["", TEMPLATE_MARK, TEXT] + SplitLines(f.template) + [FENCE, "", FIELDS_MARK, fields]
    + ["", OCCURRENCES_MARK, JSONL] + Rows(c, f.occurrences) + [FENCE, ""]
  }

  predicate Written(fs: seq<Family>) {
    forall i :: 0 <= i < |fs| ==> |fs[i].occurrences| > 0 && |SplitLines(fs[i].template)| > 0
  }

  function Body(c: Codec, fs: seq<Family>, index: nat, fields: Family -> string): seq<string>
    requires Written(fs)
  {
    if |fs| == 0 then [] else FamilyLines(c, fs[0], index, fields(fs[0])) + Body(c, fs[1..], index + 1, fields)
  }

  function Prefixed(prefix: string, xs: seq<string>): (r: seq<string>)
    ensures |r| == |xs| && forall i :: 0 <= i < |r| ==> r[i] == prefix + xs[i]
  {
    seq(|xs|, i requires 0 <= i < |xs| => prefix + xs[i])
  }

  function Preamble(overview: seq<string>, top: seq<string>): seq<string> {
    ["# Backend Log LLM Zip", "", "## Overview"] + Prefixed("- ", overview) + ["", "## Top Families", ""]
    + Prefixed("| ", top) + ["", "## Families", ""]
  }

  // render_markdown: overview facts and the table of the largest families come first.
  function RenderMarkdown(c: Codec, fs: seq<Family>, overview: seq<string>, top: seq<string>, fields: Family -> string): seq<string>
    requires Written(fs)
  {
    Preamble(overview, top) + Body(c, fs, 1, fields)
  }

  lemma BodyNext(c: Codec, fs: seq<Family>, i: nat, fields: Family -> string)
    requires Written(fs) && i < |fs|
    ensures Body(c, fs[i..], i + 1, fields) == FamilyLines(c, fs[i], i + 1, fields(fs[i])) + Body(c, fs[i + 1..], i + 2, fields)
  {
    assert fs[i..][0] == fs[i] && fs[i..][1..] == fs[i + 1..];
  }

  lemma CatAssociates<T>(a: seq<T>, b: seq<T>, c: seq<T>)
    ensures (a + b) + c == a + (b + c)
  {
  }

  /** render_markdown, as it appends its lines. */
  method WriteMarkdown(c: Codec, fs: seq<Family>, overview: seq<string>, top: seq<string>, fields: Family -> string) returns (lines: seq<string>)
    requires Written(fs)
    ensures lines == RenderMarkdown(c, fs, overview, top, fields)
  {
    lines := Preamble(overview, top);
    ghost var whole := RenderMarkdown(c, fs, overview, top, fields);
    var i := 0;
    assert fs[0..] == fs;
    while i < |fs|
      invariant i <= |fs| && lines + Body(c, fs[i..], i + 1, fields) == whole
    {
      BodyNext(c, fs, i, fields);
      CatAssociates(lines, FamilyLines(c, fs[i], i + 1, fields(fs[i])), Body(c, fs[i + 1..], i + 2, fields));
      lines := lines + FamilyLines(c, fs[i], i + 1, fields(fs[i]));
      i := i + 1;
    }
  }

  // ----- reading -----

  predicate IsHeading(line: string) {
    |line| == 9 && line[..5] == "### F" && forall i :: 5 <= i < 9 ==> IsDigit(line[i])
  }

  predicate EndsWith(s: string, end: string) { |end| <= |s| && s[|s| - |end|..] == end }
  predicate StartsWith(s: string, start: string) { start <= s }

  function AfterHeading(doc: seq<string>): (r: Option<seq<string>>)
    ensures r.Some? ==> |r.value| < |doc|
  {
    if |doc| == 0 then None else if IsHeading(doc[0]) then Some(doc[1..]) else AfterHeading(doc[1..])
  }

  function AfterTemplateMark(doc: seq<string>): (r: Option<seq<string>>)
    ensures r.Some? ==> |r.value| < |doc|
  {
    if |doc| < 2 then None
    else if EndsWith(doc[0], TEMPLATE_MARK) && doc[1] == TEXT then Some(doc[2..]) else AfterTemplateMark(doc[1..])
  }

  predicate AtFields(doc: seq<string>) { |doc| > 3 && doc[..3] == [FENCE, "", FIELDS_MARK] }
  predicate AtOccurrences(doc: seq<string>) { |doc| > 3 && doc[..3] == ["", OCCURRENCES_MARK, JSONL] }

  // The lines before the first field mark, and what follows it.
  function UpToFields(doc: seq<string>): (r: Option<(seq<string>, seq<string>)>)
    ensures r.Some? ==> |r.value.1| < |doc|
  {
    if |doc| == 0 then None
    else if AtFields(doc) then Some(([], doc[3..]))
    else
      var r := UpToFields(doc[1..]);
      if r.Some? then Some(([doc[0]] + r.value.0, r.value.1)) else None
  }

  function AfterOccurrencesMark(doc: seq<string>): (r: Option<seq<string>>)
    ensures r.Some? ==> |r.value| < |doc|
  {
    if |doc| == 0 then None else if AtOccurrences(doc) then Some(doc[3..]) else AfterOccurrencesMark(doc[1..])
  }

  function UpToFence(doc: seq<string>): (r: Option<(seq<string>, seq<string>)>)
    ensures r.Some? ==> |r.value.1| < |doc|
  {
    if |doc| == 0 then None
    else if StartsWith(doc[0], FENCE) then Some(([], doc[1..]))
    else
      var r := UpToFence(doc[1..]);
      if r.Some? then Some(([doc[0]] + r.value.0, r.value.1)) else None
  }

  // json.loads of every row; None is its error.
  function LoadAll(c: Codec, rows: seq<string>): Option<seq<Occurrence>> {
    if |rows| == 0 then Some([])
    else if c.load(rows[0]).None? || LoadAll(c, rows[1..]).None? then None
    else Some([c.load(rows[0]).value] + LoadAll(c, rows[1..]).value)
  }

  // One family after its heading: its template, its rows, and the rest.
  datatype Cutting = Cutting(template: seq<string>, rows: seq<string>, rest: seq<string>)

  function MatchFamily(doc: seq<string>): (r: Option<Cutting>)
    ensures r.Some? ==> |r.value.rest| < |doc|
  {
    var text := AfterTemplateMark(doc);
    if text.None? || |text.value| == 0 then None
    else
      var template := UpToFields(text.value[1..]);   // the template has at least one line
      if template.None? || |template.value.1| == 0 then None
      else
        var json := AfterOccurrencesMark(template.value.1[1..]);   // and so do the fields
        if json.None? || |json.value| == 0 then None
        else
          var rows := UpToFence(json.value[1..]);   // and the occurrences
          if rows.None? then None
          else Some(Cutting([text.value[0]] + template.value.0, [json.value[0]] + rows.value.0, rows.value.1))
  }

  // parse_markdown_families
  function ParseFamilies(c: Codec, doc: seq<string>): Option<seq<Parsed>>
    decreases |doc|
  {
    var after := AfterHeading(doc);
    if after.None? || MatchFamily(after.value).None? then Some([])
    else
      var m := MatchFamily(after.value).value;
      var os, more := LoadAll(c, m.rows), ParseFamilies(c, m.rest);
      if os.None? || more.None? then None else Some([Parsed(m.template, os.value)] + more.value)
  }

  // ----- reading back what was written -----

  // The three lines that end a template occur inside t.
  predicate HasMark(t: seq<string>) {
    exists i {:trigger t[i]} :: 0 <= i && i + 3 <= |t| && t[i] == FENCE && t[i + 1] == "" && t[i + 2] == FIELDS_MARK
  }

  /** The family's template, from its second line on, contains the lines that end a template. */
  predicate HasTerminator(f: Family)
    requires |SplitLines(f.template)| > 0
  {
    HasMark(SplitLines(f.template)[1..])
  }

  /** Only the first 9999 headings have four digits; a later one is not recognised. */
  lemma HeadingsAreHeadings(index: nat)
    ensures IsHeading(Heading(index)) <==> index <= 9999
  {
    DecimalLength(index);
    assert Heading(index)[..5] == "### F";
  }

  lemma DecimalLength(n: nat)
    ensures n < 10 ==> |Decimal(n)| == 1
    ensures 10 <= n < 100 ==> |Decimal(n)| == 2
    ensures 100 <= n < 1000 ==> |Decimal(n)| == 3
    ensures 1000 <= n < 10000 ==> |Decimal(n)| == 4
    ensures 10000 <= n ==> |Decimal(n)| > 4
  {
    if n >= 10 { DecimalLength(n / 10); }
  }

  predicate NoHeading(lines: seq<string>) { forall i :: 0 <= i < |lines| ==> !IsHeading(lines[i]) }

  lemma {:induction false} HeadingSkips(pre: seq<string>, doc: seq<string>)
    requires NoHeading(pre)
    ensures AfterHeading(pre + doc) == AfterHeading(doc)
  {
    if |pre| == 0 {
      assert pre + doc == doc;
    } else {
      assert (pre + doc)[1..] == pre[1..] + doc;
      HeadingSkips(pre[1..], doc);
    }
  }

  lemma {:induction false} MarkFound(pre: seq<string>, rest: seq<string>)
    requires forall i :: 0 <= i < |pre| ==> pre[i] != TEXT
    ensures AfterTemplateMark(pre + ([TEMPLATE_MARK, TEXT] + rest)) == Some(rest)
  {
    var doc := pre + ([TEMPLATE_MARK, TEXT] + rest);
    if |pre| == 0 {
      assert doc == [TEMPLATE_MARK, TEXT] + rest && doc[2..] == rest;
      assert EndsWith(TEMPLATE_MARK, TEMPLATE_MARK);
    } else {
      assert doc[1..] == pre[1..] + ([TEMPLATE_MARK, TEXT] + rest);
      assert doc[1] != TEXT;
      MarkFound(pre[1..], rest);
    }
  }

  /** The reader finds the written template exactly if no field mark is inside it; otherwise it stops
      short.  No mark can straddle the end of the template. */
  lemma {:induction false} FieldsFound(t: seq<string>, rest: seq<string>)
    requires |rest| > 0
    ensures var r := UpToFields(t + ([FENCE, "", FIELDS_MARK] + rest));
      && r.Some? && |r.value.1| > 0
      && (!HasMark(t) ==> r.value == (t, rest))
      && (HasMark(t) ==> |r.value.0| < |t|)
  {
    var doc := t + ([FENCE, "", FIELDS_MARK] + rest);
    if |t| == 0 {
      assert doc == [FENCE, "", FIELDS_MARK] + rest && doc[..3] == [FENCE, "", FIELDS_MARK] && doc[3..] == rest;
    } else {
      assert doc[1..] == t[1..] + ([FENCE, "", FIELDS_MARK] + rest);
      FieldsFound(t[1..], rest);
      assert [t[0]] + t[1..] == t && doc[0] == t[0];
      MarkAhead(t, rest);
      if AtFields(doc) {
        assert t[0] == FENCE;
        assert HasMark(t);
      }
    }
  }

  lemma MarkAhead(t: seq<string>, rest: seq<string>)
    requires |t| > 0 && |rest| > 0
    ensures var doc := t + ([FENCE, "", FIELDS_MARK] + rest);
      && (AtFields(doc) ==> |t| >= 3 && t[0] == FENCE && t[1] == "" && t[2] == FIELDS_MARK)
      && (HasMark(t) <==> AtFields(doc) || HasMark(t[1..]))
  {
    var doc := t + ([FENCE, "", FIELDS_MARK] + rest);
    if AtFields(doc) {
      assert doc[..3][0] == FENCE && doc[..3][1] == "" && doc[..3][2] == FIELDS_MARK;
      assert doc[0] == FENCE && doc[1] == "" && doc[2] == FIELDS_MARK;
    }
    if HasMark(t) {
      var i :| 0 <= i && i + 3 <= |t| && t[i] == FENCE && t[i + 1] == "" && t[i + 2] == FIELDS_MARK;
      if i == 0 {
        assert doc[..3] == [FENCE, "", FIELDS_MARK];
      } else {
        assert t[1..][i - 1] == FENCE;
      }
    }
    if HasMark(t[1..]) {
      var i :| 0 <= i && i + 3 <= |t[1..]| && t[1..][i] == FENCE && t[1..][i + 1] == "" && t[1..][i + 2] == FIELDS_MARK;
      assert t[i + 1] == FENCE;
    }
  }

  lemma OccurrencesFound(rest: seq<string>)
    requires |rest| > 0
    ensures AfterOccurrencesMark(["", OCCURRENCES_MARK, JSONL] + rest) == Some(rest)
  {
    var doc := ["", OCCURRENCES_MARK, JSONL] + rest;
    assert doc[..3] == ["", OCCURRENCES_MARK, JSONL] && doc[3..] == rest;
  }

  predicate IsRow(line: string) { |line| > 0 && line[0] == '{' }

  lemma {:induction false} FenceFound(rows: seq<string>, rest: seq<string>)
    requires forall i :: 0 <= i < |rows| ==> IsRow(rows[i])
    ensures UpToFence(rows + ([FENCE] + rest)) == Some((rows, rest))
  {
    var doc := rows + ([FENCE] + rest);
    if |rows| == 0 {
      assert doc == [FENCE] + rest && doc[1..] == rest;
    } else {
      assert doc[1..] == rows[1..] + ([FENCE] + rest);
      assert [rows[0]] + rows[1..] == rows && doc[0] == rows[0];
      FenceFound(rows[1..], rest);
    }
  }

  lemma {:induction false} RowsLoad(c: Codec, os: seq<Occurrence>)
    requires CodecOk(c)
    ensures LoadAll(c, Rows(c, os)) == Some(os)
  {
    if |os| > 0 {
      assert Rows(c, os)[1..] == Rows(c, os[1..]);
      assert c.load(c.dump(os[0])) == Some(os[0]);
      RowsLoad(c, os[1..]);
      assert [os[0]] + os[1..] == os;
    }
  }

  lemma PlainLines(c: Codec, f: Family, fields: string)
    requires |f.occurrences| > 0
    ensures forall i :: 0 <= i < |Facts(f)| ==> StartsWith(Facts(f)[i], "- ") && Facts(f)[i] != TEXT
  {
  }

  // The part of a family after its heading, cut where the reader cuts it.
  function Front(f: Family): seq<string>
    requires |f.occurrences| > 0
  {
    Facts(f) + [""]
  }

  function Tail(c: Codec, f: Family, fields: string): seq<string>
    requires |f.occurrences| > 0
  {
    [fields] + (["", OCCURRENCES_MARK, JSONL] + (Rows(c, f.occurrences) + ([FENCE] + [""])))
  }

  lemma FamilyLinesCut(c: Codec, f: Family, index: nat, fields: string, rest: seq<string>)
    requires |f.occurrences| > 0
    ensures FamilyLines(c, f, index, fields) + rest == [Heading(index)] + Pieces(c, f, fields, rest)
  {
  }

  // A written family after its heading, in the reader's pieces.
  function Pieces(c: Codec, f: Family, fields: string, rest: seq<string>): seq<string>
    requires |f.occurrences| > 0
  {
    Front(f) + ([TEMPLATE_MARK, TEXT] + (SplitLines(f.template) + ([FENCE, "", FIELDS_MARK] + (Tail(c, f, fields) + rest))))
  }

  lemma TextFound(c: Codec, f: Family, fields: string, rest: seq<string>)
    requires |f.occurrences| > 0
    ensures AfterTemplateMark(Pieces(c, f, fields, rest))
            == Some(SplitLines(f.template) + ([FENCE, "", FIELDS_MARK] + (Tail(c, f, fields) + rest)))
  {
    PlainLines(c, f, fields);
    MarkFound(Front(f), SplitLines(f.template) + ([FENCE, "", FIELDS_MARK] + (Tail(c, f, fields) + rest)));
  }

  lemma TemplateMatched(c: Codec, f: Family, fields: string, rest: seq<string>)
    requires |f.occurrences| > 0 && |SplitLines(f.template)| > 0
    ensures var t, after := SplitLines(f.template), Tail(c, f, fields) + rest;
      var text := AfterTemplateMark(Pieces(c, f, fields, rest));
      && text.Some? && |text.value| > 0 && text.value[0] == t[0]
      && (var r := UpToFields(text.value[1..]);
          && r.Some? && |r.value.1| > 0
          && (!HasTerminator(f) ==> r.value == (t[1..], after))
          && (HasTerminator(f) ==> |r.value.0| < |t[1..]|))
  {
    var t, after := SplitLines(f.template), Tail(c, f, fields) + rest;
    var text := t + ([FENCE, "", FIELDS_MARK] + after);
    TextFound(c, f, fields, rest);
    FieldsFound(t[1..], after);
    assert text[1..] == t[1..] + ([FENCE, "", FIELDS_MARK] + after) && text[0] == t[0];
  }

  // What the reader cuts out of a written family.
  lemma FamilyMatched(c: Codec, f: Family, fields: string, rest: seq<string>)
    requires CodecOk(c) && |f.occurrences| > 0 && |SplitLines(f.template)| > 0
    ensures var m := MatchFamily(Pieces(c, f, fields, rest));
      && (!HasTerminator(f) ==> m == Some(Cutting(SplitLines(f.template), Rows(c, f.occurrences), [""] + rest)))
      && (HasTerminator(f) && m.Some? ==> |m.value.template| < |SplitLines(f.template)|)
  {
    TemplateMatched(c, f, fields, rest);
    if !HasTerminator(f) {
      var t := SplitLines(f.template);
      TailMatched(c, f, fields, rest);
      assert [t[0]] + t[1..] == t;
    }
  }

  lemma TailMatched(c: Codec, f: Family, fields: string, rest: seq<string>)
    requires CodecOk(c) && |f.occurrences| > 0
    ensures var rows, after := Rows(c, f.occurrences), Tail(c, f, fields) + rest;
      && |after| > 0 && AfterOccurrencesMark(after[1..]) == Some(rows + ([FENCE] + ([""] + rest)))
      && UpToFence((rows + ([FENCE] + ([""] + rest)))[1..]) == Some((rows[1..], [""] + rest))
      && [rows[0]] + rows[1..] == rows
  {
    var rows := Rows(c, f.occurrences);
    var json := rows + ([FENCE] + ([""] + rest));
    assert (Tail(c, f, fields) + rest)[1..] == ["", OCCURRENCES_MARK, JSONL] + json;
    OccurrencesFound(json);
    assert json[1..] == rows[1..] + ([FENCE] + ([""] + rest));
    forall i | 0 <= i < |rows| ensures IsRow(rows[i]) { assert c.load(c.dump(f.occurrences[i])).Some?; }
    FenceFound(rows[1..], [""] + rest);
  }

  // The families, each with its template as `show` has it.
  function ReadAs(fs: seq<Family>, show: seq<string> -> seq<string>): seq<Parsed> {
    if |fs| == 0 then [] else [Parsed(show(fs[0].template), fs[0].occurrences)] + ReadAs(fs[1..], show)
  }

  function Expected(fs: seq<Family>): seq<Parsed> { ReadAs(fs, SplitLines) }

  lemma BlankSkipped(c: Codec, doc: seq<string>)
    ensures ParseFamilies(c, [""] + doc) == ParseFamilies(c, doc)
  {
    HeadingSkips([""], doc);
  }

  lemma FamilyParsed(c: Codec, f: Family, index: nat, fields: string, rest: seq<string>)
    requires CodecOk(c) && |f.occurrences| > 0 && |SplitLines(f.template)| > 0 && index <= 9999
    ensures var r, more := ParseFamilies(c, FamilyLines(c, f, index, fields) + rest), ParseFamilies(c, rest);
      && (!HasTerminator(f) ==> r == if more.None? then None else Some([Parsed(SplitLines(f.template), f.occurrences)] + more.value))
      && (HasTerminator(f) && r.Some? && |r.value| > 0 ==> |r.value[0].template| < |SplitLines(f.template)|)
  {
    HeadingsAreHeadings(index);
    FamilyLinesCut(c, f, index, fields, rest);
    FamilyMatched(c, f, fields, rest);
    var doc := FamilyLines(c, f, index, fields) + rest;
    assert doc[1..] == Pieces(c, f, fields, rest);
    RowsLoad(c, f.occurrences);
    BlankSkipped(c, rest);
  }

  ghost predicate NoTerminators(fs: seq<Family>)
    requires Written(fs)
  {
    forall i :: 0 <= i < |fs| ==> !HasTerminator(fs[i])
  }

  lemma NoTerminatorsCons(fs: seq<Family>)
    requires Written(fs) && |fs| > 0
    ensures Written(fs[1..]) && (NoTerminators(fs) <==> !HasTerminator(fs[0]) && NoTerminators(fs[1..]))
  {
    assert forall i :: 0 <= i < |fs[1..]| ==> fs[1..][i] == fs[i + 1];
    if !HasTerminator(fs[0]) && NoTerminators(fs[1..]) {
      forall i | 0 <= i < |fs| ensures !HasTerminator(fs[i]) { if i > 0 { assert fs[1..][i - 1] == fs[i]; } }
    }
  }

  lemma {:induction false} BodyParses(c: Codec, fs: seq<Family>, index: nat, fields: Family -> string)
    requires CodecOk(c) && Written(fs) && index + |fs| <= 10000
    ensures ParseFamilies(c, Body(c, fs, index, fields)) == Some(Expected(fs)) <==> NoTerminators(fs)
  {
    if |fs| > 0 {
      NoTerminatorsCons(fs);
      FamilyParsed(c, fs[0], index, fields(fs[0]), Body(c, fs[1..], index + 1, fields));
      BodyParses(c, fs[1..], index + 1, fields);
      HeadAndRest(Parsed(SplitLines(fs[0].template), fs[0].occurrences), Expected(fs[1..]), Expected(fs));
    }
  }

  lemma HeadAndRest<T>(x: T, rest: seq<T>, all: seq<T>)
    requires all == [x] + rest
    ensures all[0] == x && all[1..] == rest
  {
  }

  lemma PreambleHasNoHeading(overview: seq<string>, top: seq<string>)
    ensures NoHeading(Preamble(overview, top))
  {
    forall i | 0 <= i < |overview| ensures !IsHeading(Prefixed("- ", overview)[i]) { NotHeading("- " + overview[i]); }
    forall i | 0 <= i < |top| ensures !IsHeading(Prefixed("| ", top)[i]) { NotHeading("| " + top[i]); }
  }

  lemma NotHeading(line: string)
    requires |line| > 1 && line[1] == ' '
    ensures !IsHeading(line)
  {
    assert "### F"[1] == '#' && (|line| >= 5 ==> line[..5][1] == line[1]);
  }

  /** Reading the Markdown gives back every family, template and occurrences, if and only if no template
      contains the lines that end one; up to 9999 families, whose headings have four digits. */
  lemma ReadsBackIff(c: Codec, fs: seq<Family>, overview: seq<string>, top: seq<string>, fields: Family -> string)
    requires CodecOk(c) && Written(fs) && |fs| <= 9999
    ensures ParseFamilies(c, RenderMarkdown(c, fs, overview, top, fields)) == Some(Expected(fs))
            <==> NoTerminators(fs)
  {
    var pre := Preamble(overview, top);
    PreambleHasNoHeading(overview, top);
    HeadingSkips(pre, Body(c, fs, 1, fields));
    BodyParses(c, fs, 1, fields);
  }

  // ----- reading back whatever was written -----

  predicate AtMark(t: seq<string>) { |t| >= 3 && t[0] == FENCE && t[1] == "" && t[2] == FIELDS_MARK }

  // The lines before the first terminator, and those after it.
  function UpToMark(t: seq<string>): (r: seq<string>)
    ensures r <= t && (HasMark(t) ==> |r| < |t|) && (!HasMark(t) ==> r == t)
  {
    if |t| == 0 then []
    else if AtMark(t) then
      assert t[0] == FENCE && HasMark(t);
      []
    else
      MarkLater(t);
      [t[0]] + UpToMark(t[1..])
  }

  lemma MarkLater(t: seq<string>)
    requires |t| > 0 && !AtMark(t)
    ensures HasMark(t) <==> HasMark(t[1..])
  {
    if HasMark(t) {
      var i :| 0 <= i && i + 3 <= |t| && t[i] == FENCE && t[i + 1] == "" && t[i + 2] == FIELDS_MARK;
      assert i > 0 && t[1..][i - 1] == FENCE;
    }
    if HasMark(t[1..]) {
      var i :| 0 <= i && i + 3 <= |t[1..]| && t[1..][i] == FENCE && t[1..][i + 1] == "" && t[1..][i + 2] == FIELDS_MARK;
      assert t[i + 1] == FENCE;
    }
  }

  function AfterMark(t: seq<string>): (r: seq<string>)
    ensures |r| <= |t| && r == t[|t| - |r|..]
  {
    if |t| == 0 then [] else if AtMark(t) then t[3..] else AfterMark(t[1..])
  }

  // A template as the reader has it: up to the first terminator after its first line.
  function Shown(t: seq<string>): seq<string> {
    var u := SplitLines(t);
    if |u| == 0 then [] else [u[0]] + UpToMark(u[1..])
  }

  lemma ShownWhole(f: Family)
    requires |SplitLines(f.template)| > 0
    ensures if HasTerminator(f) then Shown(f.template) < SplitLines(f.template) else Shown(f.template) == SplitLines(f.template)
  {
    var u := SplitLines(f.template);
    assert [u[0]] + u[1..] == u;
  }

  lemma {:induction false} FieldsCut(t: seq<string>, rest: seq<string>)
    requires |rest| > 0 && HasMark(t)
    ensures UpToFields(t + ([FENCE, "", FIELDS_MARK] + rest)) ==
      Some((UpToMark(t), AfterMark(t) + ([FENCE, "", FIELDS_MARK] + rest)))
  {
    var tail := [FENCE, "", FIELDS_MARK] + rest;
    var doc := t + tail;
    if AtMark(t) {
      assert doc[..3] == [FENCE, "", FIELDS_MARK] && doc[3..] == t[3..] + tail;
    } else {
      MarkLater(t);
      MarkAhead(t, rest);
      assert doc[1..] == t[1..] + tail && doc[0] == t[0];
      FieldsCut(t[1..], rest);
    }
  }

  // The three lines that open the occurrences stand in t.
  predicate HasOpening(t: seq<string>) {
    exists i {:trigger t[i]} :: 0 <= i && i + 3 <= |t| && t[i] == "" && t[i + 1] == OCCURRENCES_MARK && t[i + 2] == JSONL
  }

  lemma OpeningStays(t: seq<string>, k: nat)
    requires k <= |t|
    ensures HasOpening(t[k..]) ==> HasOpening(t)
  {
    if HasOpening(t[k..]) {
      var i :| 0 <= i && i + 3 <= |t[k..]| && t[k..][i] == "" && t[k..][i + 1] == OCCURRENCES_MARK && t[k..][i + 2] == JSONL;
      assert t[i + k] == "" && t[i + k + 1] == OCCURRENCES_MARK && t[i + k + 2] == JSONL;
    }
  }

  lemma StartsOpening(pre: seq<string>, rest: seq<string>)
    requires |pre| > 0
    ensures AtOccurrences(pre + (["", OCCURRENCES_MARK, JSONL] + rest)) ==> HasOpening(pre + ["", OCCURRENCES_MARK])
  {
    var open, doc := pre + ["", OCCURRENCES_MARK], pre + (["", OCCURRENCES_MARK, JSONL] + rest);
    if AtOccurrences(doc) {
      assert doc[..3][0] == "" && doc[..3][1] == OCCURRENCES_MARK && doc[..3][2] == JSONL;
      assert open[0] == doc[0] && open[1] == doc[1] && open[2] == doc[2];
    }
  }

  lemma {:induction false} OpeningSkips(pre: seq<string>, rest: seq<string>)
    requires |rest| > 0 && !HasOpening(pre + ["", OCCURRENCES_MARK])
    ensures AfterOccurrencesMark(pre + (["", OCCURRENCES_MARK, JSONL] + rest)) == Some(rest)
  {
    var open, doc := pre + ["", OCCURRENCES_MARK], pre + (["", OCCURRENCES_MARK, JSONL] + rest);
    if |pre| == 0 {
      assert doc == ["", OCCURRENCES_MARK, JSONL] + rest;
      OccurrencesFound(rest);
    } else {
      StartsOpening(pre, rest);
      OpeningStays(open, 1);
      assert open[1..] == pre[1..] + ["", OCCURRENCES_MARK];
      assert doc[1..] == pre[1..] + (["", OCCURRENCES_MARK, JSONL] + rest);
      OpeningSkips(pre[1..], rest);
    }
  }

  // What follows a template that was cut: the rest of it, and the lines up to the occurrences.
  lemma OpeningInFrame(a: seq<string>, fields: string)
    ensures HasOpening(a + [FENCE, "", FIELDS_MARK, fields, "", OCCURRENCES_MARK]) ==> HasOpening(a)
  {
    var x := a + [FENCE, "", FIELDS_MARK, fields, "", OCCURRENCES_MARK];
    if HasOpening(x) {
      var i :| 0 <= i && i + 3 <= |x| && x[i] == "" && x[i + 1] == OCCURRENCES_MARK && x[i + 2] == JSONL;
      assert i + 3 <= |a|;
      assert a[i] == "" && a[i + 1] == OCCURRENCES_MARK && a[i + 2] == JSONL;
    }
  }

  lemma TailOpens(c: Codec, f: Family, fields: string, rest: seq<string>, a: seq<string>)
    requires |f.occurrences| > 0 && !HasOpening(a)
    ensures AfterOccurrencesMark((a + ([FENCE, "", FIELDS_MARK] + (Tail(c, f, fields) + rest)))[1..])
            == Some(Rows(c, f.occurrences) + ([FENCE] + ([""] + rest)))
  {
    var json := Rows(c, f.occurrences) + ([FENCE] + ([""] + rest));
    var whole := a + [FENCE, "", FIELDS_MARK, fields];
    OpeningInFrame(a, fields);
    assert a + [FENCE, "", FIELDS_MARK, fields, "", OCCURRENCES_MARK] == whole + ["", OCCURRENCES_MARK];
    OpeningStays(whole + ["", OCCURRENCES_MARK], 1);
    assert (whole + ["", OCCURRENCES_MARK])[1..] == whole[1..] + ["", OCCURRENCES_MARK];
    OpeningSkips(whole[1..], json);
    assert (a + ([FENCE, "", FIELDS_MARK] + (Tail(c, f, fields) + rest)))[1..] == whole[1..] + (["", OCCURRENCES_MARK, JSONL] + json);
  }

  lemma RowsEnd(c: Codec, f: Family, rest: seq<string>)
    requires CodecOk(c) && |f.occurrences| > 0
    ensures var rows := Rows(c, f.occurrences);
      UpToFence((rows + ([FENCE] + ([""] + rest)))[1..]) == Some((rows[1..], [""] + rest)) && [rows[0]] + rows[1..] == rows
  {
    TailMatched(c, f, "", rest);
  }

  // The template of a family is cut at its terminator; the rest of it comes before the fields.
  lemma CutTemplateMatched(c: Codec, f: Family, fields: string, rest: seq<string>)
    requires |f.occurrences| > 0 && |SplitLines(f.template)| > 0 && HasTerminator(f)
    ensures var t, after := SplitLines(f.template), Tail(c, f, fields) + rest;
      && AfterTemplateMark(Pieces(c, f, fields, rest)) == Some(t + ([FENCE, "", FIELDS_MARK] + after))
      && UpToFields((t + ([FENCE, "", FIELDS_MARK] + after))[1..])
         == Some((UpToMark(t[1..]), AfterMark(t[1..]) + ([FENCE, "", FIELDS_MARK] + after)))
  {
    TextFound(c, f, fields, rest);
    FieldsCutAfterFirst(SplitLines(f.template), Tail(c, f, fields) + rest);
  }

  lemma FieldsCutAfterFirst(t: seq<string>, after: seq<string>)
    requires |t| > 0 && |after| > 0 && HasMark(t[1..])
    ensures UpToFields((t + ([FENCE, "", FIELDS_MARK] + after))[1..])
            == Some((UpToMark(t[1..]), AfterMark(t[1..]) + ([FENCE, "", FIELDS_MARK] + after)))
  {
    FieldsCut(t[1..], after);
    DropFirst(t, [FENCE, "", FIELDS_MARK] + after);
  }

  lemma DropFirst<T>(t: seq<T>, tail: seq<T>)
    requires |t| > 0
    ensures (t + tail)[1..] == t[1..] + tail
  {
  }

  lemma CutOpens(c: Codec, f: Family, fields: string, rest: seq<string>)
    requires |f.occurrences| > 0 && |SplitLines(f.template)| > 0 && HasTerminator(f) && !HasOpening(SplitLines(f.template))
    ensures var t, after := SplitLines(f.template), Tail(c, f, fields) + rest;
      AfterOccurrencesMark((AfterMark(t[1..]) + ([FENCE, "", FIELDS_MARK] + after))[1..]) == Some(Rows(c, f.occurrences) + ([FENCE] + ([""] + rest)))
  {
    var t := SplitLines(f.template);
    var a := AfterMark(t[1..]);
    assert a == t[|t| - |a|..];
    OpeningStays(t, |t| - |a|);
    TailOpens(c, f, fields, rest, a);
  }

  lemma CutFamilyMatched(c: Codec, f: Family, fields: string, rest: seq<string>)
    requires CodecOk(c) && |f.occurrences| > 0 && |SplitLines(f.template)| > 0
    requires HasTerminator(f) && !HasOpening(SplitLines(f.template))
    ensures MatchFamily(Pieces(c, f, fields, rest)) == Some(Cutting(Shown(f.template), Rows(c, f.occurrences), [""] + rest))
  {
    CutTemplateMatched(c, f, fields, rest);
    CutOpens(c, f, fields, rest);
    RowsEnd(c, f, rest);
  }

  /** A family is read as its template up to the first terminator, with all its occurrences, unless the
      template goes on to forge the lines that open the occurrences. */
  lemma FamilyReadAs(c: Codec, f: Family, index: nat, fields: string, rest: seq<string>)
    requires CodecOk(c) && |f.occurrences| > 0 && |SplitLines(f.template)| > 0 && index <= 9999
    requires !HasTerminator(f) || !HasOpening(SplitLines(f.template))
    ensures var more := ParseFamilies(c, rest);
      ParseFamilies(c, FamilyLines(c, f, index, fields) + rest)
        == (if more.None? then None else Some([Parsed(Shown(f.template), f.occurrences)] + more.value))
  {
    ShownWhole(f);
    if HasTerminator(f) {
      HeadingsAreHeadings(index);
      FamilyLinesCut(c, f, index, fields, rest);
      CutFamilyMatched(c, f, fields, rest);
      var doc := FamilyLines(c, f, index, fields) + rest;
      assert doc[1..] == Pieces(c, f, fields, rest);
      RowsLoad(c, f.occurrences);
      BlankSkipped(c, rest);
    } else {
      FamilyParsed(c, f, index, fields, rest);
    }
  }

  // No template forges the lines that open the occurrences.
  predicate NoOpenings(fs: seq<Family>) { forall i :: 0 <= i < |fs| ==> !HasOpening(SplitLines(fs[i].template)) }

  // No line of a template, and no line of placeholder names, has the form of a heading.
  ghost predicate NoForgedHeadings(fs: seq<Family>, fields: Family -> string) {
    (forall i :: 0 <= i < |fs| ==> NoHeading(fs[i].template)) && forall f :: !IsHeading(fields(f))
  }

  lemma NoHeadingCat(a: seq<string>, b: seq<string>)
    requires NoHeading(a) && NoHeading(b)
    ensures NoHeading(a + b)
  {
  }

  lemma FamilyHasNoHeading(c: Codec, f: Family, index: nat, fields: string)
    requires CodecOk(c) && |f.occurrences| > 0 && index > 9999 && NoHeading(f.template) && !IsHeading(fields)
    ensures NoHeading(FamilyLines(c, f, index, fields))
  {
    HeadingsAreHeadings(index);
    PlainLines(c, f, fields);
    forall i | 0 <= i < |Facts(f)| ensures !IsHeading(Facts(f)[i]) { NotHeading(Facts(f)[i]); }
    NoHeadingCat([Heading(index)], Facts(f));
    NoHeadingCat([Heading(index)] + Facts(f), ["", TEMPLATE_MARK, TEXT]);
    NoHeadingCat([Heading(index)] + Facts(f) + ["", TEMPLATE_MARK, TEXT], SplitLines(f.template));
    NoHeadingCat([Heading(index)] + Facts(f) + ["", TEMPLATE_MARK, TEXT] + SplitLines(f.template), [FENCE, "", FIELDS_MARK, fields]);
    EndHasNoHeading(c, f);
    var front := [Heading(index)] + Facts(f) + ["", TEMPLATE_MARK, TEXT] + SplitLines(f.template) + [FENCE, "", FIELDS_MARK, fields];
    NoHeadingCat(front, ["", OCCURRENCES_MARK, JSONL] + (Rows(c, f.occurrences) + [FENCE, ""]));
    assert FamilyLines(c, f, index, fields) == front + (["", OCCURRENCES_MARK, JSONL] + (Rows(c, f.occurrences) + [FENCE, ""]));
  }

  lemma EndHasNoHeading(c: Codec, f: Family)
    requires CodecOk(c)
    ensures NoHeading(["", OCCURRENCES_MARK, JSONL] + (Rows(c, f.occurrences) + [FENCE, ""]))
  {
    forall i | 0 <= i < |f.occurrences| ensures !IsHeading(Rows(c, f.occurrences)[i]) {
      assert c.load(c.dump(f.occurrences[i])) == Some(f.occurrences[i]);
      assert "### F"[0] == '#';
      RowIsNoHeading(c.dump(f.occurrences[i]));
    }
  }

  lemma RowIsNoHeading(line: string)
    requires IsRow(line)
    ensures !IsHeading(line)
  {
    assert "### F"[0] == '#' && (|line| >= 5 ==> line[..5][0] == line[0]);
  }

  lemma {:induction false} LateBodyHasNoHeading(c: Codec, fs: seq<Family>, index: nat, fields: Family -> string)
    requires CodecOk(c) && Written(fs) && index > 9999 && NoForgedHeadings(fs, fields)
    ensures NoHeading(Body(c, fs, index, fields))
  {
    if |fs| > 0 {
      LateBodyHasNoHeading(c, fs[1..], index + 1, fields);
      FamilyHasNoHeading(c, fs[0], index, fields(fs[0]));
      NoHeadingCat(FamilyLines(c, fs[0], index, fields(fs[0])), Body(c, fs[1..], index + 1, fields));
    }
  }

  // Of families numbered from index on, those whose heading is recognised.
  function Recognised(fs: seq<Family>, index: nat): seq<Family> {
    if index > 9999 then [] else if |fs| <= 10000 - index then fs else fs[..10000 - index]
  }

  lemma RecognisedCons(fs: seq<Family>, index: nat, show: seq<string> -> seq<string>)
    requires |fs| > 0 && index <= 9999
    ensures ReadAs(Recognised(fs, index), show)
            == [Parsed(show(fs[0].template), fs[0].occurrences)] + ReadAs(Recognised(fs[1..], index + 1), show)
  {
    assert Recognised(fs, index)[1..] == Recognised(fs[1..], index + 1);
  }

  lemma {:induction false} BodyReadAs(c: Codec, fs: seq<Family>, index: nat, fields: Family -> string)
    requires CodecOk(c) && Written(fs) && NoOpenings(fs) && NoForgedHeadings(fs, fields)
    ensures ParseFamilies(c, Body(c, fs, index, fields)) == Some(ReadAs(Recognised(fs, index), Shown))
  {
    if |fs| > 0 && index > 9999 {
      LateBodyHasNoHeading(c, fs, index, fields);
      NothingParsed(c, Body(c, fs, index, fields));
    } else if |fs| > 0 {
      BodyReadAs(c, fs[1..], index + 1, fields);
      FamilyReadAs(c, fs[0], index, fields(fs[0]), Body(c, fs[1..], index + 1, fields));
      RecognisedCons(fs, index, Shown);
    }
  }

  lemma ParseSkips(c: Codec, pre: seq<string>, doc: seq<string>)
    requires NoHeading(pre)
    ensures ParseFamilies(c, pre + doc) == ParseFamilies(c, doc)
  {
    HeadingSkips(pre, doc);
  }

  lemma NothingParsed(c: Codec, doc: seq<string>)
    requires NoHeading(doc)
    ensures ParseFamilies(c, doc) == Some([])
  {
    ParseSkips(c, doc, []);
    assert doc + [] == doc;
  }

  /** What the reader makes of any document whose templates forge none of its own lines: the first 9999
      families, each with its template up to the first terminator. */
  lemma ReadsBackAs(c: Codec, fs: seq<Family>, overview: seq<string>, top: seq<string>, fields: Family -> string)
    requires CodecOk(c) && Written(fs) && NoOpenings(fs) && NoForgedHeadings(fs, fields)
    ensures ParseFamilies(c, RenderMarkdown(c, fs, overview, top, fields)) == Some(ReadAs(Recognised(fs, 1), Shown))
  {
    PreambleHasNoHeading(overview, top);
    ParseSkips(c, Preamble(overview, top), Body(c, fs, 1, fields));
    BodyReadAs(c, fs, 1, fields);
  }
}
