/**
 * The template parser: a key template such as `{context}.someapp.{key}` is a
 * sequence of literal runs and `{name}` placeholders.
 */
module KeyTemplate {
  import opened KeyErrors

  datatype Segment = Literal(text: string) | Placeholder(name: string)

  type Template = seq<Segment>

  /** Index of the first `c` in `s`, or `|s|` when there is none. */
  function IndexOf(s: string, c: char): (i: nat)
    ensures i <= |s|
    ensures i < |s| ==> s[i] == c
    ensures forall k :: 0 <= k < i ==> s[k] != c
  {
    if s == [] then 0
    else if s[0] == c then 0
    else 1 + IndexOf(s[1..], c)
  }

  /** The template text a segment is written as. */
  function RenderSegment(g: Segment): string
  {
    match g
    case Literal(text) => text
    case Placeholder(name) => "{" + name + "}"
  }

  /** The template text a sequence of segments is written as. */
  function Render(t: Template): string
  {
    if t == [] then "" else RenderSegment(t[0]) + Render(t[1..])
  }

  /** A segment the parser can produce: a non-empty literal without `{`, or a name without braces. */
  predicate SegmentOk(g: Segment)
  {
    match g
    case Literal(text) => text != [] && '{' !in text
    case Placeholder(name) => '{' !in name && '}' !in name
  }

  /** Segments the parser can produce, with literal runs maximal (never two literals in a row). */
  predicate WellFormed(t: Template)
  {
    t == [] ||
    (SegmentOk(t[0]) &&
     (t[0].Literal? && |t| > 1 ==> t[1].Placeholder?) &&
     WellFormed(t[1..]))
  }

  /** Puts `g` in front of a parsed tail, passing a failure through. */
  function Prepend(g: Segment, r: Result<Template>): Result<Template>
  {
    if r.Ok? then Ok([g] + r.value) else r
  }

  /** Splits template text into segments; fails on a `{` that is not closed before the next `{`. */
  function ParseSegments(s: string): Result<Template>
    decreases |s|, 1
  {
    if s == [] then Ok([])
    else if s[0] == '{' then ParseHole(s)
    else ParseLiteral(s)
  }

  /** Reads the placeholder `s` starts with, then the rest of the template. */
  function ParseHole(s: string): Result<Template>
    requires s != [] && s[0] == '{'
    decreases |s|, 0
  {
    var j := IndexOf(s[1..], '}');
    if j == |s| - 1 || '{' in s[1..j + 1] then Err(MalformedTemplate)
    else Prepend(Placeholder(s[1..j + 1]), ParseSegments(s[j + 2..]))
  }

  /** Reads the literal run `s` starts with, up to the next `{`, then the rest of the template. */
  function ParseLiteral(s: string): Result<Template>
    requires s != [] && s[0] != '{'
    decreases |s|, 0
  {
    var k := IndexOf(s, '{');
    Prepend(Literal(s[..k]), ParseSegments(s[k..]))
  }

  /** Parses a configured template; the empty template is refused. */
  function ParseTemplate(raw: string): (r: Result<Template>)
    ensures r.Err? ==> r.error == MalformedTemplate
    ensures r.Ok? ==> r.value != [] && WellFormed(r.value) && Render(r.value) == raw
  {
    if raw == [] then Err(MalformedTemplate)
    else
      RenderParse(raw);
      assert Sound(ParseSegments(raw), raw);
      ParseSegments(raw)
  }

  /** Prepending an admissible segment keeps a template well formed and prefixes its rendering. */
  lemma Cons(g: Segment, rest: Template)
    requires SegmentOk(g) && WellFormed(rest)
    requires g.Literal? && rest != [] ==> rest[0].Placeholder?
    ensures WellFormed([g] + rest)
    ensures Render([g] + rest) == RenderSegment(g) + Render(rest)
  {
    assert ([g] + rest)[1..] == rest;
  }

  /**
   * What the parser promises about its result `r` on text `s`: it fails only with
   * MalformedTemplate, and a parsed template is well formed, renders back to `s`,
   * is non-empty for non-empty text and opens with a placeholder when `s` opens with `{`.
   */
  predicate Sound(r: Result<Template>, s: string)
  {
    (r.Err? ==> r.error == MalformedTemplate) &&
    (r.Ok? ==>
      WellFormed(r.value) && Render(r.value) == s &&
      (s != [] ==> r.value != []) &&
      (s != [] && s[0] == '{' ==> r.value[0].Placeholder?))
  }

  /** The parser only fails with MalformedTemplate, and what it produces is well formed and renders back to its input. */
  lemma {:induction false} RenderParse(s: string)
    ensures Sound(ParseSegments(s), s)
    decreases |s|
  {
    if s != [] && s[0] == '{' {
      RenderParseHole(s);
    } else if s != [] {
      RenderParseLiteral(s);
    }
  }

  lemma {:induction false} RenderParseHole(s: string)
    requires s != [] && s[0] == '{'
    ensures Sound(ParseHole(s), s)
    decreases |s|, 0
  {
    var j := IndexOf(s[1..], '}');
    if j != |s| - 1 && '{' !in s[1..j + 1] {
      var name := s[1..j + 1];
      var tail := s[j + 2..];
      assert ParseHole(s) == Prepend(Placeholder(name), ParseSegments(tail));
      assert '}' !in name;
      assert s == "{" + name + "}" + tail by {
        assert s == [s[0]] + s[1..j + 1] + [s[j + 1]] + s[j + 2..];
      }
      RenderParse(tail);
      HoleStep(name, tail, ParseSegments(tail));
    }
  }

  /** A placeholder in front of soundly parsed text is soundly parsed text. */
  lemma HoleStep(name: string, tail: string, r: Result<Template>)
    requires '{' !in name && '}' !in name
    requires Sound(r, tail)
    ensures Sound(Prepend(Placeholder(name), r), "{" + name + "}" + tail)
  {
    if r.Ok? {
      Cons(Placeholder(name), r.value);
    }
  }

  lemma {:induction false} RenderParseLiteral(s: string)
    requires s != [] && s[0] != '{'
    ensures Sound(ParseLiteral(s), s)
    decreases |s|, 0
  {
    var k := IndexOf(s, '{');
    var tail := s[k..];
    assert ParseLiteral(s) == Prepend(Literal(s[..k]), ParseSegments(tail));
    assert s[..k] != [] && '{' !in s[..k] by {
      assert s[0] != '{';
    }
    assert tail == [] || tail[0] == '{';
    assert s == s[..k] + tail;
    RenderParse(tail);
    LiteralStep(s[..k], tail, ParseSegments(tail));
  }

  /** A literal run in front of soundly parsed text that is empty or opens with `{`. */
  lemma LiteralStep(text: string, tail: string, r: Result<Template>)
    requires text != [] && '{' !in text
    requires tail == [] || tail[0] == '{'
    requires tail == [] ==> r == Ok([])
    requires Sound(r, tail)
    ensures Sound(Prepend(Literal(text), r), text + tail)
  {
    if r.Ok? {
      Cons(Literal(text), r.value);
    }
  }

  /** Splitting `a + b` at the first `c`, when `a` has no `c` and `b` is empty or starts with one. */
  lemma {:induction false} IndexOfAt(a: string, b: string, c: char)
    requires c !in a
    requires b == [] || b[0] == c
    ensures IndexOf(a + b, c) == |a|
    decreases |a|
  {
    if a != [] {
      assert (a + b)[1..] == a[1..] + b;
      IndexOfAt(a[1..], b, c);
    }
  }

  /** A well-formed template is read back exactly from its rendering. */
  lemma {:induction false} ParseRender(t: Template)
    requires WellFormed(t)
    ensures ParseSegments(Render(t)) == Ok(t)
    ensures t != [] ==> Render(t) != [] && (t[0].Placeholder? ==> Render(t)[0] == '{')
  {
    if t != [] {
      var g, rest := t[0], t[1..];
      ParseRender(rest);
      assert t == [g] + rest;
      if g.Placeholder? {
        ParseHoleThen(g.name, rest);
        assert Render(t) == "{" + g.name + "}" + Render(rest);
      } else {
        assert rest != [] ==> rest[0].Placeholder? by {
          if rest != [] {
            assert rest[0] == t[1];
          }
        }
        ParseLiteralThen(g.text, rest);
        assert Render(t) == g.text + Render(rest);
      }
    }
  }

  /** Reading `{name}` followed by the rendering of an already-parsed tail. */
  lemma ParseHoleThen(name: string, rest: Template)
    requires '{' !in name && '}' !in name
    requires ParseSegments(Render(rest)) == Ok(rest)
    ensures ParseSegments("{" + name + "}" + Render(rest)) == Ok([Placeholder(name)] + rest)
  {
    var tail := Render(rest);
    var s := "{" + name + "}" + tail;
    assert s[1..] == name + ("}" + tail);
    IndexOfAt(name, "}" + tail, '}');
    assert s[1..|name| + 1] == name;
    assert s[|name| + 2..] == tail;
    assert ParseHole(s) == Prepend(Placeholder(name), ParseSegments(tail));
    assert ParseSegments(s) == ParseHole(s);
  }

  /** Reading a literal run followed by the rendering of a tail that is empty or starts with a placeholder. */
  lemma ParseLiteralThen(text: string, rest: Template)
    requires text != [] && '{' !in text
    requires ParseSegments(Render(rest)) == Ok(rest)
    requires rest != [] ==> Render(rest) != [] && Render(rest)[0] == '{'
    ensures ParseSegments(text + Render(rest)) == Ok([Literal(text)] + rest)
  {
    var tail := Render(rest);
    var s := text + tail;
    IndexOfAt(text, tail, '{');
    assert s[..|text|] == text;
    assert s[|text|..] == tail;
    if rest == [] {
      assert tail == [];
    }
  }

  /** Template text parses exactly when it is the rendering of some well-formed template. */
  lemma ParseOkIff(s: string)
    ensures ParseSegments(s).Ok? <==> exists t :: WellFormed(t) && Render(t) == s
  {
    RenderParse(s);
    if exists t :: WellFormed(t) && Render(t) == s {
      var t :| WellFormed(t) && Render(t) == s;
      ParseRender(t);
    }
  }

  /** Text with no `{` is one literal segment. */
  lemma PlainTextIsLiteral(raw: string)
    requires raw != [] && '{' !in raw
    ensures ParseTemplate(raw) == Ok([Literal(raw)])
  {
    var t := [Literal(raw)];
    assert t[1..] == [];
    assert Render(t) == raw;
    ParseRender(t);
  }
}
