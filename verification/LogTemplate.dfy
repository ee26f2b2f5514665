/** Templates of the log compressor: text with numbered placeholders, and the one-pass renderer that
    scans for `<NAME>` and looks every name up, whether or not the compressor wrote it. */
module LogTemplate {
  import opened Wrappers

  type Values = map<string, string>

  // ----- placeholder keys -----

  predicate IsDigit(c: char) { '0' <= c <= '9' }
  predicate IsKeyChar(c: char) { 'A' <= c <= 'Z' || IsDigit(c) || c == '_' }
  predicate KeyChars(s: string) { forall i :: 0 <= i < |s| ==> IsKeyChar(s[i]) }
  predicate IsKey(s: string) { |s| > 0 && KeyChars(s) }

  function DigitChar(d: nat): (c: char)
    requires d < 10
    ensures IsDigit(c)
  {
    '0' + d as char
  }

  function Decimal(n: nat): (r: string)
    ensures |r| > 0 && forall i :: 0 <= i < |r| ==> IsDigit(r[i])
  {
    if n < 10 then [DigitChar(n)] else Decimal(n / 10) + [DigitChar(n % 10)]
  }

  lemma {:induction false} DecimalInjective(m: nat, n: nat)
    requires Decimal(m) == Decimal(n)
    ensures m == n
  {
    var s := Decimal(m);
    if m >= 10 || n >= 10 {
      DecimalSplit(m);
      DecimalSplit(n);
      assert DigitChar(m % 10) == s[|s| - 1] == DigitChar(n % 10);
      if m >= 10 && n >= 10 { DecimalInjective(m / 10, n / 10); }
    } else {
      assert DigitChar(m) == s[0] == DigitChar(n);
    }
  }

  lemma DecimalSplit(n: nat)
    ensures Decimal(n)[|Decimal(n)| - 1] == DigitChar(n % 10)
    ensures n >= 10 ==> |Decimal(n)| > 1 && Decimal(n)[..|Decimal(n)| - 1] == Decimal(n / 10)
    ensures n < 10 ==> |Decimal(n)| == 1
  {
  }

  function KeyOf(name: string, n: nat): string { name + "_" + Decimal(n) }
  function Token(key: string): string { "<" + key + ">" }

  /** Keys of different names or numbers differ: the number is what follows the last underscore. */
  lemma KeyInjective(a: string, i: nat, b: string, j: nat)
    requires KeyOf(a, i) == KeyOf(b, j)
    ensures a == b && i == j
  {
    var k, m, n := KeyOf(a, i), |Decimal(i)|, |Decimal(j)|;
    assert k[|a|] == '_' && k[|b|] == '_';
    assert forall x :: |a| < x < |k| ==> k[x] == Decimal(i)[x - |a| - 1];
    assert forall x :: |b| < x < |k| ==> k[x] == Decimal(j)[x - |b| - 1];
    assert |a| == |b|;
    assert Decimal(i) == k[|a| + 1..] == Decimal(j);
    DecimalInjective(i, j);
    assert a == k[..|a|] == b;
  }

  lemma KeyOfIsKey(name: string, n: nat)
    requires KeyChars(name)
    ensures IsKey(KeyOf(name, n))
  {
  }

  // ----- rendering -----

  function RunLength(t: string): (n: nat)
    ensures n <= |t| && KeyChars(t[..n]) && (n < |t| ==> !IsKeyChar(t[n]))
  {
    if |t| == 0 || !IsKeyChar(t[0]) then 0 else 1 + RunLength(t[1..])
  }

  // The key of a placeholder standing at the very start of t.
  function Placeholder(t: string): (r: Option<string>)
    ensures r.Some? ==> IsKey(r.value) && |r.value| + 2 <= |t| && t[..|r.value| + 2] == Token(r.value)
  {
    if |t| == 0 || t[0] != '<' then None
    else
      var n := RunLength(t[1..]);
      if n > 0 && n + 1 < |t| && t[n + 1] == '>' then
        assert t[..n + 2] == Token(t[1..][..n]);
        Some(t[1..][..n])
      else None
  }

  function Lookup(values: Values, key: string): Option<string> { if key in values then Some(values[key]) else None }

  function Cat(a: Option<string>, b: Option<string>): Option<string> {
    if a.Some? && b.Some? then Some(a.value + b.value) else None
  }

  // What stands at the start of t: a placeholder, or one plain character.
  function HeadLength(t: string): (n: nat)
    requires |t| > 0
    ensures 0 < n <= |t|
  {
    if Placeholder(t).Some? then |Placeholder(t).value| + 2 else 1
  }

  function HeadValue(t: string, values: Values): Option<string>
    requires |t| > 0
  {
    if Placeholder(t).Some? then Lookup(values, Placeholder(t).value) else Some([t[0]])
  }

  // render_block; None is its ValueError for a missing value.
  function Render(t: string, values: Values): Option<string>
    decreases |t|
  {
    if |t| == 0 then Some("") else Cat(HeadValue(t, values), Render(t[HeadLength(t)..], values))
  }

  // The placeholders a scan of t finds.
  function Strays(t: string): seq<string>
    decreases |t|
  {
    if |t| == 0 then []
    else (if Placeholder(t).Some? then [Placeholder(t).value] else []) + Strays(t[HeadLength(t)..])
  }

  function Angles(t: string): nat { if |t| == 0 then 0 else (if t[0] == '<' then 1 else 0) + Angles(t[1..]) }

  lemma {:induction false} AnglesCat(a: string, b: string)
    ensures Angles(a + b) == Angles(a) + Angles(b)
  {
    if |a| == 0 {
      assert a + b == b;
    } else {
      assert (a + b)[1..] == a[1..] + b;
      AnglesCat(a[1..], b);
    }
  }

  lemma {:induction false} KeyHasNoAngle(key: string)
    requires KeyChars(key)
    ensures Angles(key) == 0
  {
    if |key| > 0 { KeyHasNoAngle(key[1..]); }
  }

  lemma TokenAngles(key: string)
    requires IsKey(key)
    ensures Angles(Token(key)) == 1
  {
    KeyHasNoAngle(key);
    AnglesCat("<" + key, ">");
    AnglesCat("<", key);
  }

  predicate AllIn(keys: seq<string>, values: Values) { forall i :: 0 <= i < |keys| ==> keys[i] in values }

  lemma AllInCat(a: seq<string>, b: seq<string>, values: Values)
    ensures AllIn(a + b, values) <==> AllIn(a, values) && AllIn(b, values)
  {
    if AllIn(a + b, values) {
      forall i | 0 <= i < |a| ensures a[i] in values { assert (a + b)[i] in values; }
      forall i | 0 <= i < |b| ensures b[i] in values { assert (a + b)[|a| + i] in values; }
    }
  }

  /** Rendering raises exactly when a scanned placeholder has no value. */
  lemma {:induction false} RendersIff(t: string, values: Values)
    ensures Render(t, values).Some? <==> AllIn(Strays(t), values)
    decreases |t|
  {
    if |t| > 0 {
      var head := if Placeholder(t).Some? then [Placeholder(t).value] else [];
      RendersIff(t[HeadLength(t)..], values);
      AllInCat(head, Strays(t[HeadLength(t)..]), values);
      assert Placeholder(t).Some? ==> head[0] == Placeholder(t).value;
    }
  }

  lemma {:induction false} NoStraysRendersItself(t: string, values: Values)
    requires Strays(t) == []
    ensures Render(t, values) == Some(t)
  {
    if |t| > 0 {
      assert t == [t[0]] + t[1..];
      NoStraysRendersItself(t[1..], values);
    }
  }

  predicate AngleFree(values: Values) { forall k :: k in values ==> Angles(values[k]) == 0 }

  /** With values free of `<`, rendering takes away one `<` for every placeholder it replaces. */
  lemma {:induction false} RenderTakesAngles(t: string, values: Values)
    requires Render(t, values).Some? && AngleFree(values)
    ensures Angles(Render(t, values).value) + |Strays(t)| == Angles(t)
    decreases |t|
  {
    if |t| > 0 {
      var first, rest := t[..HeadLength(t)], t[HeadLength(t)..];
      assert Render(t, values) == Cat(HeadValue(t, values), Render(rest, values));
      assert |Strays(t)| == (if Placeholder(t).Some? then 1 else 0) + |Strays(rest)|;
      RenderTakesAngles(rest, values);
      HeadTakesAngles(t, values);
      AnglesCat(HeadValue(t, values).value, Render(rest, values).value);
      AnglesCat(first, rest);
      assert t == first + rest;
    }
  }

  lemma HeadTakesAngles(t: string, values: Values)
    requires |t| > 0 && HeadValue(t, values).Some? && AngleFree(values)
    ensures Angles(HeadValue(t, values).value) + (if Placeholder(t).Some? then 1 else 0) == Angles(t[..HeadLength(t)])
  {
    if Placeholder(t).Some? {
      TokenAngles(Placeholder(t).value);
    } else {
      assert t[..1] == [t[0]];
    }
  }

  // ----- a template split at the tokens the compressor wrote -----

  datatype Template = Last(lit: string) | Part(lit: string, key: string, rest: Template)

  function Text(p: Template): string {
    match p
    case Last(lit) => lit
    case Part(lit, key, rest) => lit + Token(key) + Text(rest)
  }

  // The text with every token put back.
  function Expand(p: Template, values: Values): string {
    match p
    case Last(lit) => lit
    case Part(lit, key, rest) => lit + (if key in values then values[key] else "") + Expand(rest, values)
  }

  predicate KeysIn(p: Template, values: Values) {
    p.Part? ==> IsKey(p.key) && p.key in values && KeysIn(p.rest, values)
  }

  predicate LiteralsStrayFree(p: Template) {
    Strays(p.lit) == [] && (p.Part? ==> LiteralsStrayFree(p.rest))
  }

  lemma {:induction false} RunStops(l: string, r: string)
    requires |r| > 0 && !IsKeyChar(r[0])
    ensures RunLength(l + r) == RunLength(l)
  {
    if |l| > 0 && IsKeyChar(l[0]) {
      assert (l + r)[1..] == l[1..] + r;
      RunStops(l[1..], r);
    }
  }

  // A placeholder never reaches from a literal into a token or a line end after it.
  lemma PlaceholderStaysInside(l: string, r: string)
    requires |l| > 0 && |r| > 0 && r[0] != '>' && !IsKeyChar(r[0])
    ensures Placeholder(l + r) == Placeholder(l)
  {
    assert (l + r)[1..] == l[1..] + r;
    RunStops(l[1..], r);
    var n := RunLength(l[1..]);
    if n + 1 < |l| { assert (l + r)[1..][..n] == l[1..][..n]; }
  }

  lemma TokenIsPlaceholder(key: string, r: string)
    requires IsKey(key)
    ensures Placeholder(Token(key) + r) == Some(key)
  {
    var t := Token(key) + r;
    assert t[1..] == key + (">" + r);
    RunWhole(key, ">" + r);
    assert t[1..|key| + 1] == key;
  }

  lemma {:induction false} RunWhole(key: string, r: string)
    requires KeyChars(key) && |r| > 0 && !IsKeyChar(r[0])
    ensures RunLength(key + r) == |key|
  {
    if |key| == 0 {
      assert key + r == r;
    } else {
      assert (key + r)[1..] == key[1..] + r;
      RunWhole(key[1..], r);
    }
  }

  lemma {:induction false} RenderSplits(l: string, key: string, r: string, values: Values)
    requires IsKey(key) && key in values
    ensures Render(l + (Token(key) + r), values) == Cat(Render(l, values), Cat(Some(values[key]), Render(r, values)))
    decreases |l|
  {
    var t := l + (Token(key) + r);
    if |l| == 0 {
      TokenIsPlaceholder(key, r);
      assert t == Token(key) + r && t[HeadLength(t)..] == r;
      CatEmpty(Render(t, values));
    } else {
      PlaceholderStaysInside(l, Token(key) + r);
      var n := HeadLength(l);
      assert HeadLength(t) == n && HeadValue(t, values) == HeadValue(l, values);
      assert t[n..] == l[n..] + (Token(key) + r);
      RenderSplits(l[n..], key, r, values);
      CatAssoc(HeadValue(l, values), Render(l[n..], values), Cat(Some(values[key]), Render(r, values)));
    }
  }

  lemma CatAssoc(a: Option<string>, b: Option<string>, c: Option<string>)
    ensures Cat(Cat(a, b), c) == Cat(a, Cat(b, c))
  {
    if a.Some? && b.Some? && c.Some? { assert a.value + b.value + c.value == a.value + (b.value + c.value); }
  }

  lemma CatEmpty(a: Option<string>)
    ensures Cat(Some(""), a) == a
  {
    if a.Some? { assert "" + a.value == a.value; }
  }

  function RenderParts(p: Template, values: Values): Option<string> {
    match p
    case Last(lit) => Render(lit, values)
    case Part(lit, key, rest) => Cat(Render(lit, values), Cat(Lookup(values, key), RenderParts(rest, values)))
  }

  // The renderer, which sees only the text, finds exactly the tokens, and treats literals on their own.
  lemma {:induction false} RenderByParts(p: Template, values: Values)
    requires KeysIn(p, values)
    ensures Render(Text(p), values) == RenderParts(p, values)
  {
    if p.Part? {
      RenderByParts(p.rest, values);
      assert Text(p) == p.lit + (Token(p.key) + Text(p.rest));
      RenderSplits(p.lit, p.key, Text(p.rest), values);
    }
  }

  /** A template whose literals hold no placeholder of their own renders to what it stands for. */
  lemma {:induction false} RendersToExpansion(p: Template, values: Values)
    requires KeysIn(p, values) && LiteralsStrayFree(p)
    ensures Render(Text(p), values) == Some(Expand(p, values))
  {
    RenderByParts(p, values);
    PartsExpand(p, values);
  }

  lemma {:induction false} PartsExpand(p: Template, values: Values)
    requires KeysIn(p, values) && LiteralsStrayFree(p)
    ensures RenderParts(p, values) == Some(Expand(p, values))
  {
    NoStraysRendersItself(p.lit, values);
    if p.Part? {
      PartsExpand(p.rest, values);
      assert p.lit + (values[p.key] + Expand(p.rest, values)) == Expand(p, values);
    }
  }

  lemma {:induction false} PartsAngles(p: Template, values: Values)
    requires KeysIn(p, values) && AngleFree(values) && RenderParts(p, values).Some?
    ensures Angles(RenderParts(p, values).value) <= Angles(Expand(p, values))
    ensures Angles(RenderParts(p, values).value) == Angles(Expand(p, values)) ==> LiteralsStrayFree(p)
  {
    RenderTakesAngles(p.lit, values);
    if p.Part? {
      PartsAngles(p.rest, values);
      var lit, v, rest := Render(p.lit, values).value, values[p.key], RenderParts(p.rest, values).value;
      AnglesCat(lit, v + rest);
      AnglesCat(v, rest);
      AnglesCat(p.lit + v, Expand(p.rest, values));
      AnglesCat(p.lit, v);
    }
  }

  /** When no value contains `<`, the rendering is exact if and only if no literal contains a
      placeholder: a placeholder found in a literal is replaced or refused, never reproduced. */
  lemma ExactIffStrayFree(p: Template, values: Values)
    requires KeysIn(p, values) && AngleFree(values)
    ensures Render(Text(p), values) == Some(Expand(p, values)) <==> LiteralsStrayFree(p)
  {
    if LiteralsStrayFree(p) { RendersToExpansion(p, values); }
    RenderByParts(p, values);
    if RenderParts(p, values).Some? { PartsAngles(p, values); }
  }

  // More values do not change what a template stands for.
  lemma {:induction false} ExpandExtends(p: Template, values: Values, more: Values)
    requires KeysIn(p, values) && values.Keys <= more.Keys && forall k :: k in values ==> more[k] == values[k]
    ensures KeysIn(p, more) && Expand(p, more) == Expand(p, values)
  {
    if p.Part? { ExpandExtends(p.rest, values, more); }
  }
}
