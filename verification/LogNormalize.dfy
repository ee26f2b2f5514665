/** Normalising a block: every line is rewritten by up to fifteen passes, each replacing the values it
    captures by numbered tokens, all sharing one counter map.  The regular expressions are arbitrary
    functions; only the spans they report are used. */
module LogNormalize {
  import opened Wrappers
  import opened LogTemplate

  // ----- the patterns -----

  // One match: text[start..lo] and text[hi..end] are the literal parts, text[lo..hi] the captured value.
  datatype Match = Match(start: nat, lo: nat, hi: nat, end: nat)
  datatype PatternSpec = PatternSpec(name: string, find: string -> seq<Match>, pre: string, post: string)

  datatype Header = Header(timestamp: string, thread: string, level: string, logger: string, message: string)
  datatype ProcessStats = ProcessStats(prefix: string, pid: string, middle: string, json: string)
  datatype Cru = Cru(prefix: string, json: string)
  datatype Grammar = Grammar(
    isHeader: string -> bool, header: string -> Option<Header>,
    process: string -> Option<ProcessStats>, cru: string -> Option<Cru>, patterns: seq<PatternSpec>)

  function LevelPart(h: Header): string { "] [" + h.level + "] [" + h.logger + "]  - " }
  function HeaderLine(h: Header): string { "[" + h.timestamp + "] [" + h.thread + LevelPart(h) + h.message }

  predicate MatchOk(t: string, m: Match, pre: string, post: string) {
    m.start <= m.lo < m.hi <= m.end <= |t| && t[m.start..m.lo] == pre && t[m.hi..m.end] == post
  }

  // Matches are in order and disjoint, and each is its pattern's literal parts around a value.
  predicate MatchesOk(t: string, ms: seq<Match>, pre: string, post: string) {
    && (forall k :: 0 <= k < |ms| ==> MatchOk(t, ms[k], pre, post))
    && (forall j, k :: 0 <= j < k < |ms| ==> ms[j].end <= ms[k].start)
  }

  ghost predicate SpecOk(spec: PatternSpec) {
    KeyChars(spec.name) && forall t: string :: MatchesOk(t, spec.find(t), spec.pre, spec.post)
  }

  ghost predicate SpecsOk(specs: seq<PatternSpec>) { forall i :: 0 <= i < |specs| ==> SpecOk(specs[i]) }

  ghost predicate GrammarOk(g: Grammar) {
    && (forall t: string :: g.header(t).Some? ==> t == HeaderLine(g.header(t).value))
    && (forall t: string :: g.process(t).Some? ==> var p := g.process(t).value; p.pid != "" && p.json != "" && t == p.prefix + p.pid + p.middle + p.json)
    && (forall t: string :: g.cru(t).Some? ==> g.cru(t).value.json != "" && t == g.cru(t).value.prefix + g.cru(t).value.json)
    && SpecsOk(g.patterns)
  }

  // ----- counters and values -----

  datatype Table = Table(counters: map<string, nat>, values: Values)

  const EMPTY := Table(map[], map[])

  function Count(t: Table, name: string): nat { if name in t.counters then t.counters[name] else 0 }
  function NextKey(t: Table, name: string): string { KeyOf(name, Count(t, name) + 1) }

  function Put(t: Table, name: string, value: string): Table {
    Table(t.counters[name := Count(t, name) + 1], t.values[NextKey(t, name) := value])
  }

  // No value is stored under a number not yet counted.
  ghost predicate TableOk(t: Table) {
    forall name, n: nat {:trigger KeyOf(name, n)} :: n > Count(t, name) ==> KeyOf(name, n) !in t.values
  }

  predicate Extends(a: Values, b: Values) { a.Keys <= b.Keys && forall k :: k in a ==> b[k] == a[k] }

  /** A token's key is new: no earlier pass or line of the block has it, so no value is overwritten. */
  lemma PutIsNew(t: Table, name: string, value: string)
    requires TableOk(t)
    ensures NextKey(t, name) !in t.values && TableOk(Put(t, name, value)) && Extends(t.values, Put(t, name, value).values)
  {
    var key, u := NextKey(t, name), Put(t, name, value);
    forall other, n: nat | n > Count(u, other) ensures KeyOf(other, n) !in u.values {
      if KeyOf(other, n) == key {
        KeyInjective(name, Count(t, name) + 1, other, n);
      }
    }
  }

  // ----- the passes -----

  // Put a token in the place of t[lo..hi].
  function Cut(t: string, lo: nat, hi: nat, key: string): string
    requires lo <= hi <= |t|
  {
    t[..lo] + Token(key) + t[hi..]
  }

  // Matches k.. still to be replaced lie in t, moved by shift.
  predicate Ahead(t: string, shift: int, ms: seq<Match>, k: nat) {
    && k <= |ms|
    && (forall j :: k <= j < |ms| ==> 0 <= ms[j].lo + shift && ms[j].lo < ms[j].hi && ms[j].hi + shift <= |t|)
    && (forall i, j :: k <= i < j < |ms| ==> ms[i].hi <= ms[j].lo)
  }

  // One pass: the captured values are replaced from left to right.
  function Pass(t: string, shift: int, ms: seq<Match>, k: nat, name: string, table: Table): (string, Table)
    requires Ahead(t, shift, ms, k)
    decreases |ms| - k
  {
    if k == |ms| then (t, table)
    else
      var lo, hi := ms[k].lo + shift, ms[k].hi + shift;
      var key := NextKey(table, name);
      Pass(Cut(t, lo, hi, key), shift + |key| + 2 - (hi - lo), ms, k + 1, name, Put(table, name, t[lo..hi]))
  }

  lemma MatchesAhead(t: string, ms: seq<Match>, pre: string, post: string)
    requires MatchesOk(t, ms, pre, post)
    ensures Ahead(t, 0, ms, 0)
  {
  }

  lemma FoundAhead(t: string, spec: PatternSpec)
    requires SpecOk(spec)
    ensures MatchesOk(t, spec.find(t), spec.pre, spec.post) && Ahead(t, 0, spec.find(t), 0)
  {
    MatchesAhead(t, spec.find(t), spec.pre, spec.post);
  }

  ghost function Patterns(t: string, specs: seq<PatternSpec>, table: Table): (string, Table)
    requires SpecsOk(specs)
    decreases |specs|
  {
    if |specs| == 0 then (t, table)
    else
      FoundAhead(t, specs[0]);
      var r := Pass(t, 0, specs[0].find(t), 0, specs[0].name, table);
      Patterns(r.0, specs[1..], r.1)
  }

  // normalize_content_line
  ghost function ContentLine(g: Grammar, line: string, table: Table): (string, Table)
    requires GrammarOk(g)
  {
    if g.process(line).Some? then
      var p := g.process(line).value;
      var next := Put(table, "PID", p.pid);
      (p.prefix + Token(NextKey(table, "PID")) + p.middle + Token(NextKey(next, "PROCESS_STATS_JSON")), Put(next, "PROCESS_STATS_JSON", p.json))
    else if g.cru(line).Some? then
      (g.cru(line).value.prefix + Token(NextKey(table, "CRU_JSON")), Put(table, "CRU_JSON", g.cru(line).value.json))
    else Patterns(line, g.patterns, table)
  }

  // The lines after the header, in order.
  ghost function ContentLines(g: Grammar, lines: seq<string>, table: Table): (seq<string>, Table)
    requires GrammarOk(g)
  {
    if |lines| == 0 then ([], table)
    else
      var (before, t) := ContentLines(g, lines[..|lines| - 1], table);
      var (last, u) := ContentLine(g, lines[|lines| - 1], t);
      (before + [last], u)
  }

  ghost function HeaderTable(h: Header): Table { Put(Put(EMPTY, "TIMESTAMP", h.timestamp), "THREAD", h.thread) }

  // normalize_block; None is its ValueError for a malformed header.
  ghost function Block(g: Grammar, lines: seq<string>): Option<(seq<string>, Table)>
    requires GrammarOk(g) && |lines| > 0
  {
    if g.header(lines[0]).None? then None
    else
      var h := g.header(lines[0]).value;
      var (message, t) := ContentLine(g, h.message, HeaderTable(h));
      var (rest, u) := ContentLines(g, lines[1..], t);
      Some((["[" + Token(KeyOf("TIMESTAMP", 1)) + "] [" + Token(KeyOf("THREAD", 1)) + LevelPart(h) + message] + rest, u))
  }

  // ----- the same, in place -----

  class TokenTable {
    var counters: map<string, nat>
    var values: Values

    constructor ()
      ensures counters == map[] && values == map[]
    {
      counters, values := map[], map[];
    }

    function Now(): Table
      reads this
    {
      Table(counters, values)
    }

    method MakeToken(name: string, value: string) returns (token: string)
      modifies this
      ensures Now() == Put(old(Now()), name, value) && token == Token(NextKey(old(Now()), name))
    {
      var count := (if name in counters then counters[name] else 0) + 1;
      counters := counters[name := count];
      var key := name + "_" + Decimal(count);
      values := values[key := value];
      token := "<" + key + ">";
    }

    // spec.regex.sub(_replace, text)
    method Substitute(text: string, spec: PatternSpec) returns (out: string)
      requires SpecOk(spec)
      modifies this
      ensures Ahead(text, 0, spec.find(text), 0)
      ensures (out, Now()) == Pass(text, 0, spec.find(text), 0, spec.name, old(Now()))
    {
      var ms := spec.find(text);
      FoundAhead(text, spec);
      ghost var goal := Pass(text, 0, ms, 0, spec.name, Now());
      out := "";
      var pos: nat, k: nat := 0, 0;
      assert "" + text[0..] == text;
      while k < |ms|
        invariant k <= |ms| && pos <= |text| && (k < |ms| ==> pos <= ms[k].start)
        invariant PassLeft(out, text, pos, ms, k, spec.name, Now(), goal)
      {
        var m := ms[k];
        assert MatchOk(text, m, spec.pre, spec.post);
        ghost var done, table := out, Now();
        var token := MakeToken(spec.name, text[m.lo..m.hi]);
        out := out + text[pos..m.start] + (spec.pre + token + spec.post);
        PassTurn(text, spec, ms, k, pos, done, out, table, goal);
        pos, k := m.end, k + 1;
      }
      out := out + text[pos..];
    }

    method ApplyPatterns(text: string, specs: seq<PatternSpec>) returns (current: string)
      requires SpecsOk(specs)
      modifies this
      ensures (current, Now()) == Patterns(text, specs, old(Now()))
    {
      current := text;
      var i := 0;
      assert specs[0..] == specs;
      while i < |specs|
        invariant i <= |specs|
        invariant Patterns(current, specs[i..], Now()) == Patterns(text, specs, old(Now()))
      {
        assert specs[i..][0] == specs[i] && specs[i..][1..] == specs[i + 1..];
        current := Substitute(current, specs[i]);
        i := i + 1;
      }
    }

    method NormalizeContentLine(g: Grammar, line: string) returns (out: string)
      requires GrammarOk(g)
      modifies this
      ensures (out, Now()) == ContentLine(g, line, old(Now()))
    {
      var process := g.process(line);
      if process.Some? {
        var pid := MakeToken("PID", process.value.pid);
        var json := MakeToken("PROCESS_STATS_JSON", process.value.json);
        return process.value.prefix + pid + process.value.middle + json;
      }
      var cru := g.cru(line);
      if cru.Some? {
        var json := MakeToken("CRU_JSON", cru.value.json);
        return cru.value.prefix + json;
      }
      out := ApplyPatterns(line, g.patterns);
    }

    static method NormalizeBlock(g: Grammar, lines: seq<string>) returns (r: Option<(seq<string>, Values)>)
      requires GrammarOk(g) && |lines| > 0
      ensures r.Some? <==> Block(g, lines).Some?
      ensures r.Some? ==> r.value == (Block(g, lines).value.0, Block(g, lines).value.1.values)
    {
      var header := g.header(lines[0]);
      if header.None? { return None; }
      var h := header.value;
      var table := new TokenTable();
      var timestamp := table.MakeToken("TIMESTAMP", h.timestamp);
      var thread := table.MakeToken("THREAD", h.thread);
      var message := table.NormalizeContentLine(g, h.message);
      var template := ["[" + timestamp + "] [" + thread + ("] [" + h.level + "] [" + h.logger + "]  - ") + message];
      ghost var first, start := template, table.Now();
      var i := 1;
      while i < |lines|
        invariant 1 <= i <= |lines| && fresh(table)
        invariant template == first + ContentLines(g, lines[1..i], start).0 && table.Now() == ContentLines(g, lines[1..i], start).1
      {
        var line := table.NormalizeContentLine(g, lines[i]);
        ContentLinesGrow(g, lines, i, start);
        template := template + [line];
        i := i + 1;
      }
      assert lines[1..i] == lines[1..];
      r := Some((template, table.values));
    }
  }

  lemma ContentLinesGrow(g: Grammar, lines: seq<string>, i: nat, start: Table)
    requires GrammarOk(g) && 1 <= i < |lines|
    ensures var before, line := ContentLines(g, lines[1..i], start), ContentLine(g, lines[i], ContentLines(g, lines[1..i], start).1);
      ContentLines(g, lines[1..i + 1], start) == (before.0 + [line.0], line.1)
  {
    var xs := lines[1..i + 1];
    assert xs[..|xs| - 1] == lines[1..i] && xs[|xs| - 1] == lines[i];
  }

  // Emitting the text up to a match, its literal parts and the token is the same as cutting out the value.
  lemma CutAgrees(done: string, text: string, pos: nat, m: Match, spec: PatternSpec, key: string, out: string)
    requires pos <= m.start && MatchOk(text, m, spec.pre, spec.post)
    requires out == done + text[pos..m.start] + (spec.pre + Token(key) + spec.post)
    ensures var t, shift := done + text[pos..], |done| - pos;
      && m.hi + shift <= |t| && 0 <= m.lo + shift
      && out + text[m.end..] == Cut(t, m.lo + shift, m.hi + shift, key)
      && t[m.lo + shift..m.hi + shift] == text[m.lo..m.hi]
      && |out| - m.end == shift + |key| + 2 - (m.hi - m.lo)
  {
    var t, shift := done + text[pos..], |done| - pos;
    assert t[..m.lo + shift] == done + text[pos..m.start] + spec.pre;
    assert t[m.hi + shift..] == text[m.hi..] == spec.post + text[m.end..];
  }

  lemma AheadAfter(t: string, shift: int, ms: seq<Match>, k: nat, key: string)
    requires Ahead(t, shift, ms, k) && k < |ms|
    ensures Ahead(Cut(t, ms[k].lo + shift, ms[k].hi + shift, key), shift + |key| + 2 - (ms[k].hi - ms[k].lo), ms, k + 1)
  {
  }

  lemma PassUnfolds(t: string, shift: int, ms: seq<Match>, k: nat, name: string, table: Table)
    requires Ahead(t, shift, ms, k) && k < |ms|
    ensures var lo, hi, key := ms[k].lo + shift, ms[k].hi + shift, NextKey(table, name);
      && Ahead(Cut(t, lo, hi, key), shift + |key| + 2 - (hi - lo), ms, k + 1)
      && Pass(t, shift, ms, k, name, table)
         == Pass(Cut(t, lo, hi, key), shift + |key| + 2 - (hi - lo), ms, k + 1, name, Put(table, name, t[lo..hi]))
  {
    AheadAfter(t, shift, ms, k, NextKey(table, name));
  }

  // What is still to be done of a pass, seen from the middle of the loop.
  ghost predicate PassLeft(out: string, text: string, pos: nat, ms: seq<Match>, k: nat, name: string, table: Table, goal: (string, Table)) {
    && pos <= |text| && Ahead(out + text[pos..], |out| - pos, ms, k)
    && Pass(out + text[pos..], |out| - pos, ms, k, name, table) == goal
  }

  lemma PassTurn(text: string, spec: PatternSpec, ms: seq<Match>, k: nat, pos: nat, done: string, out: string, table: Table, goal: (string, Table))
    requires k < |ms| && pos <= ms[k].start && MatchOk(text, ms[k], spec.pre, spec.post)
    requires PassLeft(done, text, pos, ms, k, spec.name, table, goal)
    requires out == done + text[pos..ms[k].start] + (spec.pre + Token(NextKey(table, spec.name)) + spec.post)
    ensures PassLeft(out, text, ms[k].end, ms, k + 1, spec.name, Put(table, spec.name, text[ms[k].lo..ms[k].hi]), goal)
  {
    CutAgrees(done, text, pos, ms[k], spec, NextKey(table, spec.name), out);
    PassTo(done + text[pos..], |done| - pos, out + text[ms[k].end..], |out| - ms[k].end, ms, k, spec.name, table);
  }

  lemma PassTo(t: string, shift: int, u: string, next: int, ms: seq<Match>, k: nat, name: string, table: Table)
    requires Ahead(t, shift, ms, k) && k < |ms|
    requires var lo, hi, key := ms[k].lo + shift, ms[k].hi + shift, NextKey(table, name);
      u == Cut(t, lo, hi, key) && next == shift + |key| + 2 - (hi - lo)
    ensures Ahead(u, next, ms, k + 1)
    ensures Pass(u, next, ms, k + 1, name, Put(table, name, t[ms[k].lo + shift..ms[k].hi + shift])) == Pass(t, shift, ms, k, name, table)
  {
    PassUnfolds(t, shift, ms, k, name, table);
  }
}
