/** Two blocks the compressor does not give back, one for each condition of the round trip. */
module LogLimits {
  import opened Wrappers
  import opened LogTemplate
  import opened LogNormalize
  import opened LogLossless

  lemma {:induction false} NoAngles(t: string)
    requires forall i :: 0 <= i < |t| ==> t[i] != '<'
    ensures Angles(t) == 0
  {
    if |t| > 0 { NoAngles(t[1..]); }
  }

  // A grammar that recognises one header line and otherwise only the given patterns.
  function OneHeader(h: Header, patterns: seq<PatternSpec>): Grammar {
    Grammar(t => t == HeaderLine(h), t => if t == HeaderLine(h) then Some(h) else None, t => None, t => None, patterns)
  }

  // ----- a capture that contains a token -----

  const KEY := KeyOf("PROJECT_KEY", 1)

  // `projectKey=([A-Z0-9_]+)`, as it matches in the line x + y + v.
  function ProjectKey(x: string, y: string, v: string): PatternSpec {
    PatternSpec("PROJECT_KEY", t => if t == x + y + v && v != "" then [Match(|x|, |x + y|, |t|, |t|)] else [], y, "")
  }

  // `envName=([^\] ]+)`, as it matches in the output of the pass before.
  function EnvName(x: string, y: string): PatternSpec {
    PatternSpec("ENV_NAME", t => if t == x + y + Token(KEY) then [Match(0, |x|, |t|, |t|)] else [], x, "")
  }

  function Specs(x: string, y: string, v: string): seq<PatternSpec> { [ProjectKey(x, y, v), EnvName(x, y)] }
  function Captured(x: string, y: string, v: string): Header { Header("t", "h", "l", "g", x + y + v) }

  lemma SpecsAreOk(x: string, y: string, v: string)
    ensures SpecsOk(Specs(x, y, v)) && GrammarOk(OneHeader(Captured(x, y, v), Specs(x, y, v)))
  {
    assert (x + y + v)[|x|..|x + y|] == y;
    assert (x + y + Token(KEY))[0..|x|] == x;
    assert SpecOk(ProjectKey(x, y, v)) && SpecOk(EnvName(x, y));
  }

  lemma FirstPass(x: string, y: string, v: string, table: Table)
    requires v != "" && Count(table, "PROJECT_KEY") == 0
    ensures var t, ms, p := x + y + v, [Match(|x|, |x + y|, |x + y + v|, |x + y + v|)], Some(Last(x + y + v));
      && Ahead(t, 0, ms, 0) && Pass(t, 0, ms, 0, "PROJECT_KEY", table) == (x + y + Token(KEY), Put(table, "PROJECT_KEY", v))
      && PassTemplate(p, t, 0, ms, 0, "PROJECT_KEY", table) == Some(Part(x + y, KEY, Last("")))
  {
    var t, ms := x + y + v, [Match(|x|, |x + y|, |x + y + v|, |x + y + v|)];
    var lo := |x + y|;
    assert t[..lo] == x + y && t[lo..|t|] == v && t[|t|..] == "" && NextKey(table, "PROJECT_KEY") == KEY;
    assert Cut(t, lo, |t|, KEY) == x + y + Token(KEY);
    PassUnfolds(t, 0, ms, 0, "PROJECT_KEY", table);
  }

  lemma SecondPass(x: string, y: string, table: Table)
    ensures var t, ms, p := x + y + Token(KEY), [Match(0, |x|, |x + y + Token(KEY)|, |x + y + Token(KEY)|)], Some(Part(x + y, KEY, Last("")));
      Ahead(t, 0, ms, 0) && PassTemplate(p, t, 0, ms, 0, "ENV_NAME", table) == None
  {
    var t, ms := x + y + Token(KEY), [Match(0, |x|, |x + y + Token(KEY)|, |x + y + Token(KEY)|)];
    assert !Clear(Part(x + y, KEY, Last("")), |x|, |t|);
    PassUnfolds(t, 0, ms, 0, "ENV_NAME", table);
  }

  lemma {:induction false} CaptureTouches(x: string, y: string, v: string, table: Table)
    requires v != "" && Count(table, "PROJECT_KEY") == 0 && SpecsOk(Specs(x, y, v))
    ensures PatternsTemplate(Some(Last(x + y + v)), x + y + v, Specs(x, y, v), table) == None
  {
    var specs, next := Specs(x, y, v), Put(table, "PROJECT_KEY", v);
    FirstPass(x, y, v, table);
    SecondPass(x, y, next);
    assert specs[1..] == [EnvName(x, y)] && [EnvName(x, y)][1..] == [];
    assert PatternsTemplate(Some(Part(x + y, KEY, Last(""))), x + y + Token(KEY), [EnvName(x, y)], next) == None;
  }

  lemma CapturedUntracked(x: string, y: string, v: string)
    requires v != "" && GrammarOk(OneHeader(Captured(x, y, v), Specs(x, y, v)))
    ensures BlockTemplate(OneHeader(Captured(x, y, v), Specs(x, y, v)), [HeaderLine(Captured(x, y, v))], 1) == None
  {
    var table := HeaderTable(Captured(x, y, v));
    assert Count(table, "PROJECT_KEY") == 0;
    CaptureTouches(x, y, v, table);
  }

  lemma AnglesSkip(a: string, b: string)
    requires Angles(b) == 0 && forall i :: 0 <= i < |a| ==> a[i] != '<'
    ensures Angles(a + b) == 0
  {
    NoAngles(a);
    AnglesCat(a, b);
  }

  lemma CapturedAngles(h: Header)
    requires h == Header("t", "h", "l", "g", h.message) && Angles(h.message) == 0
    ensures Angles(Join([HeaderLine(h)])) == 0
  {
    AnglesSkip(LevelPart(h), h.message);
    var rest := LevelPart(h) + h.message;
    assert "[" + "t" + "] [" + "h" + LevelPart(h) + h.message == "[t] [h" + rest;
    AnglesSkip("[t] [h", rest);
  }

  /** A later pass whose capture contains the token of an earlier one loses the block, whatever the
      texts: `envName=projectKey=A` becomes `envName=projectKey=<PROJECT_KEY_1>`, ENV_NAME captures
      `projectKey=<PROJECT_KEY_1>`, and one rendering pass cannot undo two. */
  lemma CaptureBreaksRoundTrip(x: string, y: string, v: string)
    requires v != "" && Angles(x + y + v) == 0
    ensures var g, lines := OneHeader(Captured(x, y, v), Specs(x, y, v)), [HeaderLine(Captured(x, y, v))];
      GrammarOk(g) && Block(g, lines).Some? && !Untouched(g, lines) && !Exact(g, lines)
  {
    var h := Captured(x, y, v);
    var g, lines := OneHeader(h, Specs(x, y, v)), [HeaderLine(h)];
    SpecsAreOk(x, y, v);
    CapturedUntracked(x, y, v);
    CapturedAngles(h);
    ExactIffUntouched(g, lines);
  }

  // ----- a placeholder in the literal text -----

  lemma {:induction false} StrayFound(x: string, k: string)
    requires IsKey(k) && Angles(x) == 0
    ensures Strays(x + Token(k)) == [k]
  {
    if |x| == 0 {
      assert x + Token(k) == Token(k) + "";
      TokenIsPlaceholder(k, "");
    } else {
      assert (x + Token(k))[1..] == x[1..] + Token(k);
      StrayFound(x[1..], k);
    }
  }

  function Written(k: string): Header { Header("t", "h", "l", "g", Token(k)) }

  lemma WrittenBlock(k: string)
    requires IsKey(k)
    ensures var g, lines := OneHeader(Written(k), []), [HeaderLine(Written(k))];
      && GrammarOk(g) && Block(g, lines).Some? && Untouched(g, lines)
      && Block(g, lines).value.1 == HeaderTable(Written(k))
      && BlockTemplate(g, lines, 1).value == Append(HeadTemplate(), LevelPart(Written(k)), Last(Token(k)))
  {
  }

  lemma TableOfTwo(k: string)
    ensures HeaderTable(Written(k)).values == map[KeyOf("TIMESTAMP", 1) := "t", KeyOf("THREAD", 1) := "h"]
  {
    assert NextKey(EMPTY, "TIMESTAMP") == KeyOf("TIMESTAMP", 1);
    assert NextKey(Put(EMPTY, "TIMESTAMP", "t"), "THREAD") == KeyOf("THREAD", 1);
  }

  lemma WrittenParts(k: string)
    requires IsKey(k)
    ensures var tail := LevelPart(Written(k)) + Token(k);
      && Append(HeadTemplate(), LevelPart(Written(k)), Last(Token(k))) == Two("[", KeyOf("TIMESTAMP", 1), "] [", KeyOf("THREAD", 1)).(
           rest := Part("] [", KeyOf("THREAD", 1), Last(tail)))
      && Strays(tail) == [k]
  {
    NoAngles(LevelPart(Written(k)));
    StrayFound(LevelPart(Written(k)), k);
    assert "" + LevelPart(Written(k)) + Token(k) == LevelPart(Written(k)) + Token(k);
    assert Append(Last(""), LevelPart(Written(k)), Last(Token(k))) == Last(LevelPart(Written(k)) + Token(k));
  }

  lemma RendersTail(k1: string, k2: string, tail: string, k: string, values: Values)
    requires IsKey(k1) && IsKey(k2) && values.Keys == {k1, k2} && Strays(tail) == [k]
    ensures var p := Part("[", k1, Part("] [", k2, Last(tail)));
      !LiteralsStrayFree(p) && (RenderParts(p, values).Some? <==> k in values)
  {
    var p := Part("] [", k2, Last(tail));
    NoStraysRendersItself("[", values);
    NoStraysRendersItself("] [", values);
    RendersIff(tail, values);
    assert Strays(tail)[0] == k;
    assert !LiteralsStrayFree(Last(tail)) && !LiteralsStrayFree(p);
    assert RenderParts(Last(tail), values) == Render(tail, values);
    assert RenderParts(p, values).Some? <==> k in values;
  }

  lemma TwoValues(k: string) returns (k1: string, k2: string, values: Values)
    ensures k1 == KeyOf("TIMESTAMP", 1) && k2 == KeyOf("THREAD", 1) && values == HeaderTable(Written(k)).values
    ensures IsKey(k1) && IsKey(k2) && values.Keys == {k1, k2} && AngleFree(values)
  {
    k1, k2, values := KeyOf("TIMESTAMP", 1), KeyOf("THREAD", 1), HeaderTable(Written(k)).values;
    TableOfTwo(k);
    KeyOfIsKey("TIMESTAMP", 1);
    KeyOfIsKey("THREAD", 1);
  }

  lemma WrittenTail(k: string)
    requires IsKey(k)
    ensures var values, p := HeaderTable(Written(k)).values, Append(HeadTemplate(), LevelPart(Written(k)), Last(Token(k)));
      && AngleFree(values) && !LiteralsStrayFree(p)
      && (RenderParts(p, values).Some? <==> k in {KeyOf("TIMESTAMP", 1), KeyOf("THREAD", 1)})
  {
    var k1, k2, values := TwoValues(k);
    var tail := LevelPart(Written(k)) + Token(k);
    WrittenParts(k);
    RendersTail(k1, k2, tail, k, values);
  }

  /** A message that merely mentions `<NAME>` is not given back, whatever the name: rendering raises if no
      value has that name and otherwise writes that value. */
  lemma StrayBreaksRoundTrip(k: string)
    requires IsKey(k)
    ensures var g, lines := OneHeader(Written(k), []), [HeaderLine(Written(k))];
      && GrammarOk(g) && Block(g, lines).Some? && Untouched(g, lines) && !Exact(g, lines)
      && (Render(Join(Block(g, lines).value.0), Block(g, lines).value.1.values).Some? <==> k in {KeyOf("TIMESTAMP", 1), KeyOf("THREAD", 1)})
  {
    var g, lines := OneHeader(Written(k), []), [HeaderLine(Written(k))];
    WrittenBlock(k);
    WrittenTail(k);
    BlockFollows(g, lines);
    RenderByParts(BlockTemplate(g, lines, 1).value, HeaderTable(Written(k)).values);
    ExactIffNoStray(g, lines);
  }
}
