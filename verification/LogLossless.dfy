/** When rendering a normalised block gives the block back.  Alongside the passes runs the template they
    would build if no captured value overlapped a token; it is lost, once and for all, by the first
    capture that does. */
module LogLossless {
  import opened Wrappers
  import opened LogTemplate
  import opened LogNormalize

  // ----- cutting a value out of a template -----

  // t[lo..hi] lies in one literal of the template: it overlaps no token.
  predicate Clear(p: Template, lo: int, hi: int) {
    hi <= |p.lit| || (p.Part? && lo >= |p.lit| + |p.key| + 2 && Clear(p.rest, lo - |p.lit| - |p.key| - 2, hi - |p.lit| - |p.key| - 2))
  }

  function Insert(p: Template, lo: nat, hi: nat, key: string): Template
    requires lo < hi && Clear(p, lo, hi)
  {
    if hi <= |p.lit| then
      Part(p.lit[..lo], key, match p case Last(lit) => Last(lit[hi..]) case Part(lit, k, rest) => Part(lit[hi..], k, rest))
    else
      var off := |p.lit| + |p.key| + 2;
      Part(p.lit, p.key, Insert(p.rest, lo - off, hi - off, key))
  }

  lemma CutAfter(x: string, y: string, lo: nat, hi: nat, key: string)
    requires |x| <= lo <= hi <= |x| + |y|
    ensures Cut(x + y, lo, hi, key) == x + Cut(y, lo - |x|, hi - |x|, key)
    ensures (x + y)[lo..hi] == y[lo - |x|..hi - |x|]
  {
  }

  lemma {:induction false} ClearFits(p: Template, lo: nat, hi: nat)
    requires lo < hi && Clear(p, lo, hi)
    ensures hi <= |Text(p)|
  {
    if hi > |p.lit| { ClearFits(p.rest, lo - |p.lit| - |p.key| - 2, hi - |p.lit| - |p.key| - 2); }
  }

  lemma {:induction false} InsertCuts(p: Template, more: Values, lo: nat, hi: nat, key: string)
    requires lo < hi <= |Text(p)| && Clear(p, lo, hi) && KeysIn(p, more) && IsKey(key)
    requires key in more && more[key] == Text(p)[lo..hi]
    ensures Text(Insert(p, lo, hi, key)) == Cut(Text(p), lo, hi, key)
    ensures KeysIn(Insert(p, lo, hi, key), more) && Expand(Insert(p, lo, hi, key), more) == Expand(p, more)
  {
    if hi <= |p.lit| {
      assert Text(p)[lo..hi] == p.lit[lo..hi];
      InsertHere(p, more, lo, hi, key);
    } else {
      var head := p.lit + Token(p.key);
      assert Text(p) == head + Text(p.rest);
      CutAfter(head, Text(p.rest), lo, hi, key);
      ClearFits(p.rest, lo - |head|, hi - |head|);
      InsertCuts(p.rest, more, lo - |head|, hi - |head|, key);
    }
  }

  lemma InsertHere(p: Template, more: Values, lo: nat, hi: nat, key: string)
    requires lo < hi <= |p.lit| && KeysIn(p, more) && IsKey(key) && key in more && more[key] == p.lit[lo..hi]
    ensures hi <= |Text(p)| && Text(p)[lo..hi] == p.lit[lo..hi] && Text(Insert(p, lo, hi, key)) == Cut(Text(p), lo, hi, key)
    ensures KeysIn(Insert(p, lo, hi, key), more) && Expand(Insert(p, lo, hi, key), more) == Expand(p, more)
  {
    assert p.lit == p.lit[..lo] + p.lit[lo..hi] + p.lit[hi..];
    assert Text(p)[hi..] == p.lit[hi..] + Text(p)[|p.lit|..];
  }

  // ----- leaks -----

  // A `<` that rendering lets through: it starts no placeholder, or one whose value contains `<`.
  predicate LeakHead(t: string, values: Values) {
    |t| > 0 && t[0] == '<' && (Placeholder(t).None? || (Placeholder(t).value in values && Angles(values[Placeholder(t).value]) > 0))
  }

  predicate Leak(t: string, values: Values) {
    |t| > 0 && (LeakHead(t, values) || Leak(t[1..], values))
  }

  lemma {:induction false} LeakAfter(x: string, y: string, values: Values)
    requires Leak(y, values)
    ensures Leak(x + y, values)
  {
    if |x| == 0 {
      assert x + y == y;
    } else {
      assert (x + y)[1..] == x[1..] + y;
      LeakAfter(x[1..], y, values);
    }
  }

  lemma {:induction false} LeakSkips(x: string, y: string, values: Values)
    requires Leak(x + y, values) && Angles(x) == 0
    ensures Leak(y, values)
  {
    if |x| == 0 {
      assert x + y == y;
    } else {
      assert (x + y)[1..] == x[1..] + y;
      LeakSkips(x[1..], y, values);
    }
  }

  lemma {:induction false} LeakBefore(l: string, r: string, values: Values)
    requires Leak(l, values) && (|r| > 0 ==> r[0] != '>' && !IsKeyChar(r[0]))
    ensures Leak(l + r, values)
  {
    if |r| == 0 {
      assert l + r == l;
    } else {
      PlaceholderStaysInside(l, r);
      assert (l + r)[1..] == l[1..] + r;
      if !LeakHead(l, values) { LeakBefore(l[1..], r, values); }
    }
  }

  lemma {:induction false} LeakExtends(t: string, values: Values, more: Values)
    requires Leak(t, values) && Extends(values, more)
    ensures Leak(t, more)
  {
    if !LeakHead(t, values) { LeakExtends(t[1..], values, more); }
  }

  /** A leak shows: rendering raises or its result contains `<`. */
  lemma {:induction false} LeakShows(t: string, values: Values)
    requires Leak(t, values) && Render(t, values).Some?
    ensures Angles(Render(t, values).value) > 0
    decreases |t|
  {
    var n := HeadLength(t);
    var head, rest := HeadValue(t, values).value, Render(t[n..], values).value;
    AnglesCat(head, rest);
    if !LeakHead(t, values) {
      if n > 1 {
        KeyHasNoAngle(Placeholder(t).value);
        AnglesCat(Placeholder(t).value, ">");
        assert t[1..] == (Placeholder(t).value + ">") + t[n..];
        LeakSkips(Placeholder(t).value + ">", t[n..], values);
      }
      LeakShows(t[n..], values);
    }
  }

  lemma PlaceholderLonger(l: string, r: string)
    requires Placeholder(l).Some?
    ensures Placeholder(l + r) == Placeholder(l)
  {
    var key := Placeholder(l).value;
    assert l == Token(key) + l[|key| + 2..];
    assert l + r == Token(key) + (l[|key| + 2..] + r);
    TokenIsPlaceholder(key, l[|key| + 2..] + r);
  }

  // A value that contains `<` leaks from the place of its token.
  lemma CaughtLeaks(t: string, values: Values, lo: nat, hi: nat, key: string)
    requires lo < hi <= |t| && IsKey(key) && key in values && Angles(values[key]) > 0
    ensures Leak(Cut(t, lo, hi, key), values)
  {
    var here := Token(key) + t[hi..];
    TokenIsPlaceholder(key, t[hi..]);
    assert LeakHead(here, values);
    LeakAfter(t[..lo], here, values);
    assert Cut(t, lo, hi, key) == t[..lo] + here;
  }

  /** No later pass stops a leak. */
  lemma {:induction false} LeakPersists(t: string, values: Values, lo: nat, hi: nat, key: string)
    requires Leak(t, values) && lo < hi <= |t| && IsKey(key) && key !in values
    ensures Leak(Cut(t, lo, hi, key), values[key := t[lo..hi]])
  {
    if lo == 0 {
      LeakPersistsFront(t, values, hi, key);
    } else if LeakHead(t, values) {
      HeadPersists(t, values, lo, hi, key, values[key := t[lo..hi]]);
    } else {
      LeakPersists(t[1..], values, lo - 1, hi - 1, key);
      assert t[1..][lo - 1..hi - 1] == t[lo..hi];
      LeakOneLater(t, lo, hi, key, values[key := t[lo..hi]]);
    }
  }

  lemma LeakOneLater(t: string, lo: nat, hi: nat, key: string, more: Values)
    requires 0 < lo < hi <= |t| && Leak(Cut(t[1..], lo - 1, hi - 1, key), more)
    ensures Leak(Cut(t, lo, hi, key), more)
  {
    assert t == [t[0]] + t[1..];
    CutAfter([t[0]], t[1..], lo, hi, key);
    LeakAfter([t[0]], Cut(t[1..], lo - 1, hi - 1, key), more);
  }

  lemma LeakPersistsFront(t: string, values: Values, hi: nat, key: string)
    requires Leak(t, values) && 0 < hi <= |t| && IsKey(key) && key !in values
    ensures Leak(Cut(t, 0, hi, key), values[key := t[0..hi]])
  {
    var more := values[key := t[0..hi]];
    if Angles(t[0..hi]) > 0 {
      CaughtLeaks(t, more, 0, hi, key);
    } else {
      assert t == t[0..hi] + t[hi..];
      LeakSkips(t[0..hi], t[hi..], values);
      LeakExtends(t[hi..], values, more);
      LeakAfter(Token(key), t[hi..], more);
      assert Cut(t, 0, hi, key) == Token(key) + t[hi..];
    }
  }

  lemma HeadPersists(t: string, values: Values, lo: nat, hi: nat, key: string, more: Values)
    requires LeakHead(t, values) && 0 < lo < hi <= |t| && Extends(values, more)
    ensures Leak(Cut(t, lo, hi, key), more)
  {
    PlaceholderStaysInside(t[..lo], Token(key) + t[hi..]);
    assert Cut(t, lo, hi, key) == t[..lo] + (Token(key) + t[hi..]);
    if Placeholder(t[..lo]).Some? {
      PlaceholderLonger(t[..lo], t[lo..]);
      assert t == t[..lo] + t[lo..];
    }
    assert LeakHead(Cut(t, lo, hi, key), more);
  }

  // A cut that starts inside a token leaves its `<` without an end.
  lemma CutInsideToken(cut: string, d: nat, key: string, r: string, values: Values)
    requires IsKey(cut) && 0 < d < |cut| + 2 && IsKey(key)
    ensures Leak(Token(cut)[..d] + (Token(key) + r), values)
  {
    var l := Token(cut)[..d];
    PlaceholderStaysInside(l, Token(key) + r);
    assert l[1..] == cut[..d - 1] && l[0] == '<';
    RunOfKey(cut[..d - 1]);
    assert Placeholder(l) == None;
    assert (l + (Token(key) + r))[0] == '<';
  }

  lemma {:induction false} RunOfKey(key: string)
    requires KeyChars(key)
    ensures RunLength(key) == |key|
  {
    if |key| > 0 { RunOfKey(key[1..]); }
  }

  /** A captured value that overlaps a token makes a leak. */
  lemma {:induction false} TouchLeaks(p: Template, more: Values, lo: nat, hi: nat, key: string)
    requires lo < hi <= |Text(p)| && !Clear(p, lo, hi) && KeysIn(p, more) && IsKey(key) && key in more && more[key] == Text(p)[lo..hi]
    ensures Leak(Cut(Text(p), lo, hi, key), more)
  {
    var head := p.lit + Token(p.key);
    assert Text(p) == head + Text(p.rest);
    if lo >= |head| {
      CutAfter(head, Text(p.rest), lo, hi, key);
      TouchLeaks(p.rest, more, lo - |head|, hi - |head|, key);
      LeakAfter(head, Cut(Text(p.rest), lo - |head|, hi - |head|, key), more);
    } else if lo <= |p.lit| {
      assert Text(p)[|p.lit|] == '<';
      AngleInside(Text(p), lo, hi, |p.lit|);
      CaughtLeaks(Text(p), more, lo, hi, key);
    } else {
      CutInsideLater(p, Text(p), lo, hi, key, more);
    }
  }

  lemma AngleInside(t: string, lo: nat, hi: nat, at: nat)
    requires lo <= at < hi <= |t| && t[at] == '<'
    ensures Angles(t[lo..hi]) > 0
  {
    assert t[lo..hi] == t[lo..at] + t[at..hi];
    AnglesCat(t[lo..at], t[at..hi]);
  }

  lemma CutInsideLater(p: Template, t: string, lo: nat, hi: nat, key: string, more: Values)
    requires p.Part? && IsKey(p.key) && t == p.lit + Token(p.key) + Text(p.rest) && IsKey(key)
    requires |p.lit| < lo < |p.lit| + |p.key| + 2 && lo < hi <= |t|
    ensures Leak(Cut(t, lo, hi, key), more)
  {
    var left := Token(p.key)[..lo - |p.lit|];
    assert t[..lo] == p.lit + left;
    CutInsideToken(p.key, lo - |p.lit|, key, t[hi..], more);
    LeakAfter(p.lit, left + (Token(key) + t[hi..]), more);
    assert Cut(t, lo, hi, key) == p.lit + (left + (Token(key) + t[hi..]));
  }

  // ----- following the passes -----

  /** The text stands for the original by the template at hand; without one, it leaks, if the original
      had no `<` to begin with. */
  ghost predicate Track(t: string, values: Values, p: Option<Template>, original: string) {
    if p.Some? then Text(p.value) == t && KeysIn(p.value, values) && Expand(p.value, values) == original
    else Angles(original) == 0 ==> Leak(t, values)
  }

  function Step(p: Option<Template>, lo: nat, hi: nat, key: string): Option<Template>
    requires lo < hi
  {
    if p.Some? && Clear(p.value, lo, hi) then Some(Insert(p.value, lo, hi, key)) else None
  }

  lemma StepTracks(t: string, values: Values, p: Option<Template>, original: string, lo: nat, hi: nat, key: string)
    requires Track(t, values, p, original) && lo < hi <= |t| && IsKey(key) && key !in values
    ensures Track(Cut(t, lo, hi, key), values[key := t[lo..hi]], Step(p, lo, hi, key), original)
  {
    var more := values[key := t[lo..hi]];
    if p.Some? {
      ExpandExtends(p.value, values, more);
      if Clear(p.value, lo, hi) { InsertCuts(p.value, more, lo, hi, key); } else { TouchLeaks(p.value, more, lo, hi, key); }
    } else if Angles(original) == 0 {
      LeakPersists(t, values, lo, hi, key);
    }
  }

  function PassTemplate(p: Option<Template>, t: string, shift: int, ms: seq<Match>, k: nat, name: string, table: Table): Option<Template>
    requires Ahead(t, shift, ms, k)
    decreases |ms| - k
  {
    if k == |ms| then p
    else
      var lo, hi := ms[k].lo + shift, ms[k].hi + shift;
      var key := NextKey(table, name);
      PassTemplate(Step(p, lo, hi, key), Cut(t, lo, hi, key), shift + |key| + 2 - (hi - lo), ms, k + 1, name, Put(table, name, t[lo..hi]))
  }

  ghost predicate Follows(t: string, table: Table, p: Option<Template>, original: string) {
    TableOk(table) && Track(t, table.values, p, original)
  }

  lemma TokenTracks(t: string, table: Table, p: Option<Template>, original: string, lo: nat, hi: nat, name: string)
    requires Follows(t, table, p, original) && lo < hi <= |t| && KeyChars(name)
    ensures Follows(Cut(t, lo, hi, NextKey(table, name)), Put(table, name, t[lo..hi]), Step(p, lo, hi, NextKey(table, name)), original)
    ensures Extends(table.values, Put(table, name, t[lo..hi]).values)
  {
    KeyOfIsKey(name, Count(table, name) + 1);
    PutIsNew(table, name, t[lo..hi]);
    StepTracks(t, table.values, p, original, lo, hi, NextKey(table, name));
  }

  ghost predicate PassFollows(p: Option<Template>, t: string, shift: int, ms: seq<Match>, k: nat, name: string, table: Table, original: string)
    requires Ahead(t, shift, ms, k)
  {
    var r := Pass(t, shift, ms, k, name, table);
    Follows(r.0, r.1, PassTemplate(p, t, shift, ms, k, name, table), original) && Extends(table.values, r.1.values)
  }

  // The place, key and table of the next token of a pass.
  predicate IsTurn(t: string, shift: int, ms: seq<Match>, k: nat, name: string, table: Table, u: string, next: int, put: Table)
    requires Ahead(t, shift, ms, k) && k < |ms|
  {
    var lo, hi, key := ms[k].lo + shift, ms[k].hi + shift, NextKey(table, name);
    u == Cut(t, lo, hi, key) && next == shift + |key| + 2 - (hi - lo) && put == Put(table, name, t[lo..hi])
  }

  lemma TurnBack(p: Option<Template>, t: string, shift: int, ms: seq<Match>, k: nat, name: string, table: Table, original: string,
                 p': Option<Template>, u: string, next: int, put: Table)
    requires Ahead(t, shift, ms, k) && k < |ms| && IsTurn(t, shift, ms, k, name, table, u, next, put)
    requires p' == Step(p, ms[k].lo + shift, ms[k].hi + shift, NextKey(table, name)) && Extends(table.values, put.values)
    ensures Ahead(u, next, ms, k + 1)
    ensures PassFollows(p', u, next, ms, k + 1, name, put, original) ==> PassFollows(p, t, shift, ms, k, name, table, original)
  {
    AheadAfter(t, shift, ms, k, NextKey(table, name));
  }

  lemma TurnForth(p: Option<Template>, t: string, shift: int, ms: seq<Match>, k: nat, name: string, table: Table, original: string)
    returns (p': Option<Template>, u: string, next: int, put: Table)
    requires Ahead(t, shift, ms, k) && k < |ms| && KeyChars(name) && Follows(t, table, p, original)
    ensures Follows(u, put, p', original) && IsTurn(t, shift, ms, k, name, table, u, next, put)
    ensures p' == Step(p, ms[k].lo + shift, ms[k].hi + shift, NextKey(table, name)) && Extends(table.values, put.values)
  {
    var lo, hi, key := ms[k].lo + shift, ms[k].hi + shift, NextKey(table, name);
    p', u, next, put := Step(p, lo, hi, key), Cut(t, lo, hi, key), shift + |key| + 2 - (hi - lo), Put(table, name, t[lo..hi]);
    TokenTracks(t, table, p, original, lo, hi, name);
  }

  // One token of a pass: what holds before the rest of the pass, and what the rest of the pass gives.
  lemma Turn(p: Option<Template>, t: string, shift: int, ms: seq<Match>, k: nat, name: string, table: Table, original: string)
    returns (p': Option<Template>, u: string, next: int, put: Table)
    requires Ahead(t, shift, ms, k) && k < |ms| && KeyChars(name) && Follows(t, table, p, original)
    ensures Ahead(u, next, ms, k + 1) && Follows(u, put, p', original)
    ensures PassFollows(p', u, next, ms, k + 1, name, put, original) ==> PassFollows(p, t, shift, ms, k, name, table, original)
  {
    p', u, next, put := TurnForth(p, t, shift, ms, k, name, table, original);
    TurnBack(p, t, shift, ms, k, name, table, original, p', u, next, put);
  }

  lemma {:induction false} PassTracks(p: Option<Template>, t: string, shift: int, ms: seq<Match>, k: nat, name: string, table: Table, original: string)
    requires Ahead(t, shift, ms, k) && KeyChars(name) && Follows(t, table, p, original)
    ensures PassFollows(p, t, shift, ms, k, name, table, original)
    decreases |ms| - k
  {
    if k < |ms| {
      var p', u, next, put := Turn(p, t, shift, ms, k, name, table, original);
      PassTracks(p', u, next, ms, k + 1, name, put, original);
    }
  }

  ghost function PatternsTemplate(p: Option<Template>, t: string, specs: seq<PatternSpec>, table: Table): Option<Template>
    requires SpecsOk(specs)
    decreases |specs|
  {
    if |specs| == 0 then p
    else
      FoundAhead(t, specs[0]);
      var r := Pass(t, 0, specs[0].find(t), 0, specs[0].name, table);
      PatternsTemplate(PassTemplate(p, t, 0, specs[0].find(t), 0, specs[0].name, table), r.0, specs[1..], r.1)
  }

  lemma {:induction false} PatternsTrack(p: Option<Template>, t: string, specs: seq<PatternSpec>, table: Table, original: string)
    requires SpecsOk(specs) && Follows(t, table, p, original)
    ensures Follows(Patterns(t, specs, table).0, Patterns(t, specs, table).1, PatternsTemplate(p, t, specs, table), original)
    ensures Extends(table.values, Patterns(t, specs, table).1.values)
    decreases |specs|
  {
    if |specs| > 0 {
      FoundAhead(t, specs[0]);
      var ms := specs[0].find(t);
      var r := Pass(t, 0, ms, 0, specs[0].name, table);
      PassTracks(p, t, 0, ms, 0, specs[0].name, table, original);
      PatternsTrack(PassTemplate(p, t, 0, ms, 0, specs[0].name, table), r.0, specs[1..], r.1, original);
    }
  }

  // ----- lines -----

  ghost function LineTemplate(g: Grammar, line: string, table: Table): Option<Template>
    requires GrammarOk(g)
  {
    if g.process(line).Some? then
      var p := g.process(line).value;
      Some(Two(p.prefix, NextKey(table, "PID"), p.middle, NextKey(Put(table, "PID", p.pid), "PROCESS_STATS_JSON")))
    else if g.cru(line).Some? then Some(Part(g.cru(line).value.prefix, NextKey(table, "CRU_JSON"), Last("")))
    else PatternsTemplate(Some(Last(line)), line, g.patterns, table)
  }

  function Two(a: string, k1: string, b: string, k2: string): Template { Part(a, k1, Part(b, k2, Last(""))) }

  lemma TwoStand(a: string, k1: string, b: string, k2: string, values: Values)
    requires k1 in values && k2 in values && IsKey(k1) && IsKey(k2)
    ensures KeysIn(Two(a, k1, b, k2), values)
    ensures Text(Two(a, k1, b, k2)) == a + Token(k1) + b + Token(k2)
    ensures Expand(Two(a, k1, b, k2), values) == a + values[k1] + b + values[k2]
  {
    var inner := Part(b, k2, Last(""));
    assert KeysIn(Last(""), values) && Text(Last("")) == "" && Expand(Last(""), values) == "";
    assert b + values[k2] + "" == b + values[k2] && b + Token(k2) + "" == b + Token(k2);
    assert KeysIn(inner, values) && Text(inner) == b + Token(k2) && Expand(inner, values) == b + values[k2];
    assert Text(Two(a, k1, b, k2)) == a + Token(k1) + Text(inner);
    assert Expand(Two(a, k1, b, k2), values) == a + values[k1] + Expand(inner, values);
  }

  // Two tokens put into a line at once.
  lemma TwoTrack(a: string, n1: string, v1: string, b: string, n2: string, v2: string, table: Table)
    requires TableOk(table) && KeyChars(n1) && KeyChars(n2)
    ensures var next := Put(table, n1, v1);
      var end, k1, k2 := Put(next, n2, v2), NextKey(table, n1), NextKey(next, n2);
      Follows(a + Token(k1) + b + Token(k2), end, Some(Two(a, k1, b, k2)), a + v1 + b + v2) && Extends(table.values, end.values)
  {
    var next := Put(table, n1, v1);
    PutIsNew(table, n1, v1);
    PutIsNew(next, n2, v2);
    KeyOfIsKey(n1, Count(table, n1) + 1);
    KeyOfIsKey(n2, Count(next, n2) + 1);
    TwoStand(a, NextKey(table, n1), b, NextKey(next, n2), Put(next, n2, v2).values);
  }

  lemma CruTracks(c: Cru, line: string, table: Table)
    requires TableOk(table) && line == c.prefix + c.json
    ensures Follows(c.prefix + Token(NextKey(table, "CRU_JSON")), Put(table, "CRU_JSON", c.json),
                    Some(Part(c.prefix, NextKey(table, "CRU_JSON"), Last(""))), line)
    ensures Extends(table.values, Put(table, "CRU_JSON", c.json).values)
  {
    PutIsNew(table, "CRU_JSON", c.json);
    KeyOfIsKey("CRU_JSON", Count(table, "CRU_JSON") + 1);
    assert c.prefix + Token(NextKey(table, "CRU_JSON")) + "" == c.prefix + Token(NextKey(table, "CRU_JSON"));
    assert c.prefix + c.json + "" == c.prefix + c.json;
  }

  lemma LineTracks(g: Grammar, line: string, table: Table)
    requires GrammarOk(g) && TableOk(table)
    ensures Follows(ContentLine(g, line, table).0, ContentLine(g, line, table).1, LineTemplate(g, line, table), line)
    ensures Extends(table.values, ContentLine(g, line, table).1.values)
  {
    if g.process(line).Some? {
      var p := g.process(line).value;
      TwoTrack(p.prefix, "PID", p.pid, p.middle, "PROCESS_STATS_JSON", p.json, table);
    } else if g.cru(line).Some? {
      CruTracks(g.cru(line).value, line, table);
    } else {
      PatternsTrack(Some(Last(line)), line, g.patterns, table, line);
    }
  }

  // ----- joining -----

  function Append(a: Template, sep: string, b: Template): Template {
    match a
    case Last(lit) => (match b case Last(l) => Last(lit + sep + l) case Part(l, k, r) => Part(lit + sep + l, k, r))
    case Part(lit, key, rest) => Part(lit, key, Append(rest, sep, b))
  }

  lemma {:induction false} AppendJoins(a: Template, sep: string, b: Template, values: Values)
    requires KeysIn(a, values) && KeysIn(b, values)
    ensures Text(Append(a, sep, b)) == Text(a) + sep + Text(b)
    ensures KeysIn(Append(a, sep, b), values) && Expand(Append(a, sep, b), values) == Expand(a, values) + sep + Expand(b, values)
  {
    match a
    case Last(lit) =>
      if b.Part? {
        var tail := Token(b.key) + Text(b.rest);
        assert (lit + sep + b.lit) + tail == lit + sep + (b.lit + tail);
        var value := values[b.key] + Expand(b.rest, values);
        assert (lit + sep + b.lit) + value == lit + sep + (b.lit + value);
      }
    case Part(lit, key, rest) =>
      AppendJoins(rest, sep, b, values);
      assert lit + Token(key) + (Text(rest) + sep + Text(b)) == (lit + Token(key) + Text(rest)) + sep + Text(b);
      var value := values[key];
      assert lit + value + (Expand(rest, values) + sep + Expand(b, values)) == (lit + value + Expand(rest, values)) + sep + Expand(b, values);
  }

  function Both(a: Option<Template>, sep: string, b: Option<Template>): Option<Template> {
    if a.Some? && b.Some? then Some(Append(a.value, sep, b.value)) else None
  }

  // The separator cannot continue a placeholder.
  predicate Ends(sep: string) { |sep| > 0 && sep[0] != '>' && !IsKeyChar(sep[0]) }

  lemma JoinTracks(a: string, b: string, values: Values, more: Values, pa: Option<Template>, pb: Option<Template>, sep: string, xa: string, xb: string)
    requires Track(a, values, pa, xa) && Track(b, more, pb, xb) && Extends(values, more) && Ends(sep)
    ensures Track(a + sep + b, more, Both(pa, sep, pb), xa + sep + xb)
  {
    AnglesCat(xa + sep, xb);
    AnglesCat(xa, sep);
    if pa.Some? { ExpandExtends(pa.value, values, more); }
    if pa.Some? && pb.Some? {
      AppendJoins(pa.value, sep, pb.value, more);
    } else if Angles(xa + sep + xb) == 0 {
      if pa.None? {
        LeakExtends(a, values, more);
        LeakBefore(a, sep + b, more);
        assert a + sep + b == a + (sep + b);
      } else {
        LeakAfter(a + sep, b, more);
      }
    }
  }

  function Join(lines: seq<string>): string {
    if |lines| == 0 then "" else if |lines| == 1 then lines[0] else Join(lines[..|lines| - 1]) + "\n" + lines[|lines| - 1]
  }

  // ----- blocks -----

  ghost function HeadText(h: Header): string { "[" + Token(KeyOf("TIMESTAMP", 1)) + "] [" + Token(KeyOf("THREAD", 1)) }

  ghost function HeadTemplate(): Template { Two("[", KeyOf("TIMESTAMP", 1), "] [", KeyOf("THREAD", 1)) }

  lemma HeadTracks(h: Header)
    ensures Follows(HeadText(h), HeaderTable(h), Some(HeadTemplate()), "[" + h.timestamp + "] [" + h.thread)
  {
    TwoTrack("[", "TIMESTAMP", h.timestamp, "] [", "THREAD", h.thread, EMPTY);
  }

  // The template of the first n lines of a block.
  ghost function BlockTemplate(g: Grammar, lines: seq<string>, n: nat): Option<Template>
    requires GrammarOk(g) && 1 <= n <= |lines| && g.header(lines[0]).Some?
  {
    var h := g.header(lines[0]).value;
    if n == 1 then Both(Some(HeadTemplate()), LevelPart(h), LineTemplate(g, h.message, HeaderTable(h)))
    else
      var before := ContentLines(g, lines[1..n - 1], ContentLine(g, h.message, HeaderTable(h)).1);
      Both(BlockTemplate(g, lines, n - 1), "\n", LineTemplate(g, lines[n - 1], before.1))
  }

  // The first n lines of a normalised block, and the table after them.
  ghost function BlockPrefix(g: Grammar, lines: seq<string>, n: nat): (seq<string>, Table)
    requires GrammarOk(g) && 1 <= n <= |lines| && g.header(lines[0]).Some?
  {
    var h := g.header(lines[0]).value;
    var message := ContentLine(g, h.message, HeaderTable(h));
    var rest := ContentLines(g, lines[1..n], message.1);
    ([HeadText(h) + LevelPart(h) + message.0] + rest.0, rest.1)
  }

  ghost predicate PrefixFollows(g: Grammar, lines: seq<string>, n: nat)
    requires GrammarOk(g) && 1 <= n <= |lines| && g.header(lines[0]).Some?
  {
    var b := BlockPrefix(g, lines, n);
    |b.0| == n && Follows(Join(b.0), b.1, BlockTemplate(g, lines, n), Join(lines[..n]))
  }

  lemma HeaderFollows(g: Grammar, lines: seq<string>)
    requires GrammarOk(g) && |lines| >= 1 && g.header(lines[0]).Some?
    ensures PrefixFollows(g, lines, 1)
  {
    var h := g.header(lines[0]).value;
    var message := ContentLine(g, h.message, HeaderTable(h));
    HeadTracks(h);
    LineTracks(g, h.message, HeaderTable(h));
    JoinTracks(HeadText(h), message.0, HeaderTable(h).values, message.1.values, Some(HeadTemplate()),
               LineTemplate(g, h.message, HeaderTable(h)), LevelPart(h), "[" + h.timestamp + "] [" + h.thread, h.message);
    assert lines[1..1] == [] && lines[..1] == [lines[0]];
    assert "[" + h.timestamp + "] [" + h.thread + LevelPart(h) + h.message == HeaderLine(h);
  }

  // One more line after lines that are already followed.
  lemma LineJoins(g: Grammar, done: seq<string>, table: Table, p: Option<Template>, raw: seq<string>, line: string)
    requires GrammarOk(g) && |done| > 0 && |raw| > 0 && Follows(Join(done), table, p, Join(raw))
    ensures var r := ContentLine(g, line, table);
      Follows(Join(done + [r.0]), r.1, Both(p, "\n", LineTemplate(g, line, table)), Join(raw + [line]))
  {
    LineTracks(g, line, table);
    var r := ContentLine(g, line, table);
    JoinTracks(Join(done), r.0, table.values, r.1.values, p, LineTemplate(g, line, table), "\n", Join(raw), line);
    JoinMore(done, r.0);
    JoinMore(raw, line);
  }

  lemma NextLineFollows(g: Grammar, lines: seq<string>, n: nat)
    requires GrammarOk(g) && 2 <= n <= |lines| && g.header(lines[0]).Some? && PrefixFollows(g, lines, n - 1)
    ensures PrefixFollows(g, lines, n)
  {
    var before := BlockPrefix(g, lines, n - 1);
    PrefixGrows(g, lines, n);
    LineJoins(g, before.0, before.1, BlockTemplate(g, lines, n - 1), lines[..n - 1], lines[n - 1]);
    assert lines[..n] == lines[..n - 1] + [lines[n - 1]];
  }

  lemma {:induction false} BlockPrefixFollows(g: Grammar, lines: seq<string>, n: nat)
    requires GrammarOk(g) && 1 <= n <= |lines| && g.header(lines[0]).Some?
    ensures PrefixFollows(g, lines, n)
  {
    if n == 1 {
      HeaderFollows(g, lines);
    } else {
      BlockPrefixFollows(g, lines, n - 1);
      NextLineFollows(g, lines, n);
    }
  }

  lemma JoinMore(lines: seq<string>, line: string)
    requires |lines| > 0
    ensures Join(lines + [line]) == Join(lines) + "\n" + line
  {
    assert (lines + [line])[..|lines|] == lines;
  }

  lemma PrefixGrows(g: Grammar, lines: seq<string>, n: nat)
    requires GrammarOk(g) && 2 <= n <= |lines| && g.header(lines[0]).Some?
    ensures var before := BlockPrefix(g, lines, n - 1);
      var line := ContentLine(g, lines[n - 1], before.1);
      BlockPrefix(g, lines, n) == (before.0 + [line.0], line.1)
  {
    var h := g.header(lines[0]).value;
    var message := ContentLine(g, h.message, HeaderTable(h));
    GrowOne(g, lines, n, HeadText(h) + LevelPart(h) + message.0, message.1);
  }

  lemma GrowOne(g: Grammar, lines: seq<string>, n: nat, first: string, start: Table)
    requires GrammarOk(g) && 2 <= n <= |lines|
    ensures var rest, grown := ContentLines(g, lines[1..n - 1], start), ContentLines(g, lines[1..n], start);
      var line := ContentLine(g, lines[n - 1], rest.1);
      [first] + grown.0 == [first] + rest.0 + [line.0] && grown.1 == line.1
  {
    ContentLinesGrow(g, lines, n - 1, start);
  }

  // ----- the round trip of one block -----

  ghost predicate Exact(g: Grammar, lines: seq<string>)
    requires GrammarOk(g) && |lines| > 0 && Block(g, lines).Some?
  {
    Render(Join(Block(g, lines).value.0), Block(g, lines).value.1.values) == Some(Join(lines))
  }

  // No captured value of the block overlaps a token of an earlier pass.
  ghost predicate Untouched(g: Grammar, lines: seq<string>)
    requires GrammarOk(g) && |lines| > 0 && Block(g, lines).Some?
  {
    BlockTemplate(g, lines, |lines|).Some?
  }

  // The block's literal text, between the tokens, contains no placeholder.
  ghost predicate StrayFree(g: Grammar, lines: seq<string>)
    requires GrammarOk(g) && |lines| > 0 && Block(g, lines).Some? && Untouched(g, lines)
  {
    LiteralsStrayFree(BlockTemplate(g, lines, |lines|).value)
  }

  lemma BlockFollows(g: Grammar, lines: seq<string>)
    requires GrammarOk(g) && |lines| > 0 && Block(g, lines).Some?
    ensures var b := Block(g, lines).value; |b.0| == |lines| && Follows(Join(b.0), b.1, BlockTemplate(g, lines, |lines|), Join(lines))
  {
    BlockPrefixFollows(g, lines, |lines|);
    assert lines[1..|lines|] == lines[1..] && lines[..|lines|] == lines;
  }

  /** The compressor loses nothing: a block whose captures overlap no token and whose literal text
      contains no placeholder is rendered back exactly, across all passes and lines. */
  lemma BlockRoundTrip(g: Grammar, lines: seq<string>)
    requires GrammarOk(g) && |lines| > 0 && Block(g, lines).Some? && Untouched(g, lines) && StrayFree(g, lines)
    ensures Exact(g, lines)
  {
    BlockFollows(g, lines);
    RendersToExpansion(BlockTemplate(g, lines, |lines|).value, Block(g, lines).value.1.values);
  }

  /** Neither condition can be dropped.  If no captured value contains `<`, an untouched block is exact
      if and only if its literal text contains no placeholder. */
  lemma ExactIffNoStray(g: Grammar, lines: seq<string>)
    requires GrammarOk(g) && |lines| > 0 && Block(g, lines).Some? && Untouched(g, lines) && AngleFree(Block(g, lines).value.1.values)
    ensures Exact(g, lines) <==> StrayFree(g, lines)
  {
    BlockFollows(g, lines);
    ExactIffStrayFree(BlockTemplate(g, lines, |lines|).value, Block(g, lines).value.1.values);
  }

  lemma {:induction false} NoAngleNoStray(t: string)
    requires Angles(t) == 0
    ensures Strays(t) == []
  {
    if |t| > 0 { NoAngleNoStray(t[1..]); }
  }

  lemma {:induction false} NoAngleLiterals(p: Template, values: Values)
    requires Angles(Expand(p, values)) == 0
    ensures LiteralsStrayFree(p)
  {
    if p.Part? {
      var value := if p.key in values then values[p.key] else "";
      AnglesCat(p.lit + value, Expand(p.rest, values));
      AnglesCat(p.lit, value);
      NoAngleLiterals(p.rest, values);
    }
    NoAngleNoStray(p.lit);
  }

  /** And a block without any `<` is exact if and only if no capture overlaps a token. */
  lemma ExactIffUntouched(g: Grammar, lines: seq<string>)
    requires GrammarOk(g) && |lines| > 0 && Block(g, lines).Some? && Angles(Join(lines)) == 0
    ensures Exact(g, lines) <==> Untouched(g, lines)
  {
    BlockFollows(g, lines);
    var b := Block(g, lines).value;
    if Untouched(g, lines) {
      NoAngleLiterals(BlockTemplate(g, lines, |lines|).value, b.1.values);
      BlockRoundTrip(g, lines);
    } else if Render(Join(b.0), b.1.values).Some? {
      LeakShows(Join(b.0), b.1.values);
    }
  }
}
