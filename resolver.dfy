/**
 * The template resolver: substitutes bound parameters for the placeholders of
 * a template, all or nothing, and `TranslateKey`, which parses and resolves a
 * configured template string.
 */
module KeyResolver {
  import opened KeyErrors
  import opened KeyTemplate

  /** One named route parameter, as the HTTP router hands it over. */
  datatype Param = Param(key: string, value: string)

  /** An ordered list of named parameters; a name bound twice takes its first value. */
  type Params = seq<Param>

  /** The value bound to `name`: the first parameter with that name, if any. */
  function Lookup(p: Params, name: string): (r: Option<string>)
    ensures r.None? <==> forall i :: 0 <= i < |p| ==> p[i].key != name
  {
    if p == [] then None
    else if p[0].key == name then Some(p[0].value)
    else
      assert forall i :: 1 <= i < |p| ==> p[i] == p[1..][i - 1];
      Lookup(p[1..], name)
  }

  /** A bound name takes the value of its first occurrence. */
  lemma {:induction false} LookupFirst(p: Params, name: string, i: nat)
    requires i < |p| && p[i].key == name
    requires forall j :: 0 <= j < i ==> p[j].key != name
    ensures Lookup(p, name) == Some(p[i].value)
  {
    if i > 0 {
      LookupFirst(p[1..], name, i - 1);
    }
  }

  /** A bound name's value comes from an occurrence of it with no earlier one. */
  lemma {:induction false} LookupFound(p: Params, name: string)
    ensures Lookup(p, name).Some? ==>
      exists i :: 0 <= i < |p| && p[i].key == name && Lookup(p, name).value == p[i].value &&
                  forall j :: 0 <= j < i ==> p[j].key != name
  {
    if p != [] && p[0].key != name {
      LookupFound(p[1..], name);
      if Lookup(p[1..], name).Some? {
        var i :| 0 <= i < |p[1..]| && p[1..][i].key == name && Lookup(p[1..], name).value == p[1..][i].value &&
                 forall j :: 0 <= j < i ==> p[1..][j].key != name;
        assert p[i + 1] == p[1..][i];
        assert forall j :: 0 <= j < i + 1 ==> p[j].key != name by {
          assert forall j :: 1 <= j < i + 1 ==> p[j] == p[1..][j - 1];
        }
      }
    }
  }

  /** The template mentions placeholder `name`. */
  predicate Mentions(t: Template, name: string)
  {
    exists i :: 0 <= i < |t| && t[i] == Placeholder(name)
  }

  /** Every placeholder of `t` has a bound parameter. */
  predicate AllBound(t: Template, p: Params)
  {
    forall i :: 0 <= i < |t| && t[i].Placeholder? ==> Lookup(p, t[i].name).Some?
  }

  /**
   * Concatenates the literal segments and the bound values in template order.
   * Fails with the first placeholder, in template order, that has no bound
   * parameter: no partial key is ever produced.
   */
  function Resolve(t: Template, p: Params): (r: Result<string>)
    ensures r.Ok? <==> AllBound(t, p)
    ensures r.Err? ==> r.error.UnboundPlaceholder? &&
                       Mentions(t, r.error.name) && Lookup(p, r.error.name).None?
  {
    if t == [] then Ok("")
    else
      var rest := Resolve(t[1..], p);
      assert forall i :: 1 <= i < |t| ==> t[i] == t[1..][i - 1];
      match t[0]
      case Literal(text) =>
        if rest.Ok? then Ok(text + rest.value)
        else
          assert t[1..][0] == t[1];
          rest
      case Placeholder(name) =>
        match Lookup(p, name)
        case None => Err(UnboundPlaceholder(name))
        case Some(v) => if rest.Ok? then Ok(v + rest.value) else rest
  }

  /** The placeholder a failed resolution names is the first unbound one in template order. */
  lemma {:induction false} ResolveFailsOnFirstUnbound(t: Template, p: Params)
    requires Resolve(t, p).Err?
    ensures exists i :: 0 <= i < |t| && t[i] == Placeholder(Resolve(t, p).error.name) &&
                        forall j :: 0 <= j < i && t[j].Placeholder? ==> Lookup(p, t[j].name).Some?
  {
    var n := Resolve(t, p).error.name;
    if t[0] == Placeholder(n) && Lookup(p, n).None? {
    } else {
      assert Resolve(t[1..], p) == Resolve(t, p);
      ResolveFailsOnFirstUnbound(t[1..], p);
      var i :| 0 <= i < |t[1..]| && t[1..][i] == Placeholder(n) &&
               forall j :: 0 <= j < i && t[1..][j].Placeholder? ==> Lookup(p, t[1..][j].name).Some?;
      assert t[i + 1] == Placeholder(n);
      forall j | 0 <= j < i + 1 && t[j].Placeholder?
        ensures Lookup(p, t[j].name).Some?
      {
        if j > 0 {
          assert t[j] == t[1..][j - 1];
        }
      }
    }
  }

  /** Parses `template` and resolves it against the route parameters `p`. */
  function TranslateKey(template: string, p: Params): (r: Result<string>)
    ensures r.Err? && r.error == MalformedTemplate <==> ParseTemplate(template).Err?
    ensures ParseTemplate(template).Ok? ==>
      (r.Ok? <==> AllBound(ParseTemplate(template).value, p))
  {
    match ParseTemplate(template)
    case Err(e) => Err(e)
    case Ok(t) => Resolve(t, p)
  }

  /** Resolution distributes over concatenation: literal text and placeholder order are kept. */
  lemma {:induction false} ResolveAppend(t1: Template, t2: Template, p: Params)
    ensures Resolve(t1 + t2, p).Ok? <==> Resolve(t1, p).Ok? && Resolve(t2, p).Ok?
    ensures Resolve(t1 + t2, p).Ok? ==>
      Resolve(t1 + t2, p).value == Resolve(t1, p).value + Resolve(t2, p).value
  {
    if t1 == [] {
      assert t1 + t2 == t2;
    } else {
      assert (t1 + t2)[0] == t1[0];
      assert (t1 + t2)[1..] == t1[1..] + t2;
      ResolveAppend(t1[1..], t2, p);
      if Resolve(t1 + t2, p).Ok? {
        assert Resolve(t1[1..] + t2, p).Ok?;
      }
    }
  }

  /** A single segment resolves to its text or its bound value. */
  lemma ResolveSingle(g: Segment, p: Params)
    ensures g.Literal? ==> Resolve([g], p) == Ok(g.text)
    ensures g.Placeholder? && Lookup(p, g.name).Some? ==> Resolve([g], p) == Ok(Lookup(p, g.name).value)
    ensures g.Placeholder? && Lookup(p, g.name).None? ==> Resolve([g], p) == Err(UnboundPlaceholder(g.name))
  {
    assert [g][1..] == [];
    match g
    case Literal(text) => assert text + "" == text;
    case Placeholder(name) =>
      if Lookup(p, name).Some? {
        assert Lookup(p, name).value + "" == Lookup(p, name).value;
      }
  }

  /** A template without placeholders resolves to its own text, whatever the parameters. */
  lemma {:induction false} ResolveLiteralOnly(t: Template, p: Params)
    requires forall i :: 0 <= i < |t| ==> t[i].Literal?
    ensures Resolve(t, p) == Ok(Render(t))
  {
    if t != [] {
      ResolveLiteralOnly(t[1..], p);
    }
  }

  /** A configured template without `{` translates to itself whatever the parameters. */
  lemma TranslatePlainText(template: string, p: Params)
    requires template != [] && '{' !in template
    ensures TranslateKey(template, p) == Ok(template)
  {
    PlainTextIsLiteral(template);
    ResolveLiteralOnly([Literal(template)], p);
    assert Render([Literal(template)]) == template;
  }

  /** Parameters the template does not mention do not affect the result. */
  lemma {:induction false} ResolveIgnoresUnused(t: Template, p: Params, q: Params)
    requires forall n :: Mentions(t, n) ==> Lookup(p, n) == Lookup(q, n)
    ensures Resolve(t, p) == Resolve(t, q)
  {
    if t != [] {
      forall n | Mentions(t[1..], n) ensures Lookup(p, n) == Lookup(q, n) {
        var i :| 0 <= i < |t[1..]| && t[1..][i] == Placeholder(n);
        assert t[i + 1] == Placeholder(n);
      }
      ResolveIgnoresUnused(t[1..], p, q);
      if t[0].Placeholder? {
        assert Mentions(t, t[0].name);
      }
    }
  }
}
