/**
 * The concrete cases the repository's tests pin down: the `TestKeys` table
 * for key translation and the `TestKey` write-then-read flow.
 */
module KeyScenarios {
  import opened KeyErrors
  import opened KeyTemplate
  import opened KeyResolver
  import opened KeySearch
  import opened KeyStore
  import opened KeyApi
  import opened KeyTexts

  /** The route parameters of the translation test. */
  const TestParams: Params := [Param("context", "dev"), Param("key", "foo"), Param("customer_id", "12345678")]

  /** The configured search list, most specific first. */
  const SearchList: seq<string> := ["{context}.someapp.{customer_id}.{key}", "{context}.someapp.{key}"]

  /** The route parameters of `/lode/dev/foo`. */
  const DevFoo: Params := [Param("context", "dev"), Param("key", "foo")]

  /** The lookups the scenarios need, one parameter at a time. */
  lemma TestLookups()
    ensures Lookup(TestParams, "context") == Some("dev")
    ensures Lookup(TestParams, "key") == Some("foo")
    ensures Lookup(TestParams, "customer_id") == Some("12345678")
    ensures Lookup(TestParams, "region") == None
    ensures Lookup(DevFoo, "context") == Some("dev")
    ensures Lookup(DevFoo, "key") == Some("foo")
    ensures Lookup(DevFoo, "customer_id") == None
  {
    LookupFirst(TestParams, "context", 0);
    LookupFirst(TestParams, "key", 1);
    LookupFirst(TestParams, "customer_id", 2);
    LookupFirst(DevFoo, "context", 0);
    LookupFirst(DevFoo, "key", 1);
  }

  /** `{a}<lit>{b}` parses into its three segments. */
  lemma ParseThree(a: string, lit: string, b: string)
    requires '{' !in a && '}' !in a && '{' !in b && '}' !in b
    requires lit != [] && '{' !in lit
    ensures ParseTemplate(Hole(a) + lit + Hole(b)) == Ok([Placeholder(a), Literal(lit), Placeholder(b)])
  {
    var t3 := [Placeholder(b)];
    var t2 := [Literal(lit)] + t3;
    var t1 := [Placeholder(a)] + t2;
    Cons(Placeholder(b), []);
    Cons(Literal(lit), t3);
    Cons(Placeholder(a), t2);
    assert t1 == [Placeholder(a), Literal(lit), Placeholder(b)];
    assert Render(t1) == Hole(a) + (lit + Hole(b));
    assert Hole(a) + (lit + Hole(b)) == Hole(a) + lit + Hole(b);
    ParseRender(t1);
  }

  /** `{a}<lit1>{b}<lit2>{c}` parses into its five segments. */
  lemma ParseFive(a: string, lit1: string, b: string, lit2: string, c: string)
    requires '{' !in a && '}' !in a && '{' !in b && '}' !in b && '{' !in c && '}' !in c
    requires lit1 != [] && '{' !in lit1 && lit2 != [] && '{' !in lit2
    ensures ParseTemplate(Hole(a) + lit1 + Hole(b) + lit2 + Hole(c)) ==
            Ok([Placeholder(a), Literal(lit1), Placeholder(b), Literal(lit2), Placeholder(c)])
  {
    var t5 := [Placeholder(c)];
    var t4 := [Literal(lit2)] + t5;
    var t3 := [Placeholder(b)] + t4;
    var t2 := [Literal(lit1)] + t3;
    var t1 := [Placeholder(a)] + t2;
    Cons(Placeholder(c), []);
    Cons(Literal(lit2), t5);
    Cons(Placeholder(b), t4);
    Cons(Literal(lit1), t3);
    Cons(Placeholder(a), t2);
    assert t1 == [Placeholder(a), Literal(lit1), Placeholder(b), Literal(lit2), Placeholder(c)];
    assert Render(t1) == Hole(a) + (lit1 + (Hole(b) + (lit2 + Hole(c))));
    assert Hole(a) + (lit1 + (Hole(b) + (lit2 + Hole(c)))) == Hole(a) + lit1 + Hole(b) + lit2 + Hole(c);
    ParseRender(t1);
  }

  /** `{a}<lit>{b}` resolves to the two bound values around the literal. */
  lemma ResolveThree(a: string, lit: string, b: string, p: Params, va: string, vb: string)
    requires Lookup(p, a) == Some(va) && Lookup(p, b) == Some(vb)
    ensures Resolve([Placeholder(a), Literal(lit), Placeholder(b)], p) == Ok(va + lit + vb)
  {
    ResolveSingle(Literal(lit), p);
    ResolveSingle(Placeholder(b), p);
    ResolveAppend([Literal(lit)], [Placeholder(b)], p);
    assert [Literal(lit)] + [Placeholder(b)] == [Literal(lit), Placeholder(b)];
    ResolveSingle(Placeholder(a), p);
    ResolveAppend([Placeholder(a)], [Literal(lit), Placeholder(b)], p);
    assert [Placeholder(a)] + [Literal(lit), Placeholder(b)] == [Placeholder(a), Literal(lit), Placeholder(b)];
    assert va + (lit + vb) == va + lit + vb;
  }

  /** `{a}<lit1>{b}<lit2>{c}` with all three names bound. */
  lemma ResolveFiveBound(a: string, lit1: string, b: string, lit2: string, c: string, p: Params,
                         va: string, vb: string, vc: string)
    requires Lookup(p, a) == Some(va) && Lookup(p, b) == Some(vb) && Lookup(p, c) == Some(vc)
    ensures Resolve([Placeholder(a), Literal(lit1), Placeholder(b), Literal(lit2), Placeholder(c)], p) ==
            Ok(va + lit1 + vb + lit2 + vc)
  {
    ResolveThree(b, lit2, c, p, vb, vc);
    ResolveSingle(Placeholder(a), p);
    ResolveSingle(Literal(lit1), p);
    ResolveAppend([Placeholder(a)], [Literal(lit1)], p);
    assert [Placeholder(a)] + [Literal(lit1)] == [Placeholder(a), Literal(lit1)];
    ResolveAppend([Placeholder(a), Literal(lit1)], [Placeholder(b), Literal(lit2), Placeholder(c)], p);
    assert [Placeholder(a), Literal(lit1)] + [Placeholder(b), Literal(lit2), Placeholder(c)] ==
           [Placeholder(a), Literal(lit1), Placeholder(b), Literal(lit2), Placeholder(c)];
    assert (va + lit1) + (vb + lit2 + vc) == va + lit1 + vb + lit2 + vc;
  }

  /** `{a}<lit1>{b}<lit2>{c}` with `a` bound and `b` unbound fails on `b`. */
  lemma ResolveFiveUnbound(a: string, lit1: string, b: string, lit2: string, c: string, p: Params)
    requires Lookup(p, a).Some? && Lookup(p, b).None?
    ensures Resolve([Placeholder(a), Literal(lit1), Placeholder(b), Literal(lit2), Placeholder(c)], p) ==
            Err(UnboundPlaceholder(b))
  {
    var back := [Placeholder(b), Literal(lit2), Placeholder(c)];
    ResolveSingle(Placeholder(b), p);
    ResolveAppend([Placeholder(b)], [Literal(lit2), Placeholder(c)], p);
    assert [Placeholder(b)] + [Literal(lit2), Placeholder(c)] == back;
    ResolveSingle(Placeholder(a), p);
    ResolveSingle(Literal(lit1), p);
    ResolveAppend([Placeholder(a)], [Literal(lit1)], p);
    assert [Placeholder(a)] + [Literal(lit1)] == [Placeholder(a), Literal(lit1)];
    ResolveAppend([Placeholder(a), Literal(lit1)], back, p);
    assert [Placeholder(a), Literal(lit1)] + back ==
           [Placeholder(a), Literal(lit1), Placeholder(b), Literal(lit2), Placeholder(c)];
    var t := [Placeholder(a), Literal(lit1), Placeholder(b), Literal(lit2), Placeholder(c)];
    assert Resolve(t, p).Err?;
    assert t[0] == Placeholder(a) && t[1] == Literal(lit1);
    assert t[1..][1..] == back;
  }

  /** `{context}.{key}` resolves to `dev.foo`; the unused `customer_id` plays no part. */
  lemma TranslateContextKey()
    ensures TranslateKey("{context}.{key}", TestParams) == Ok("dev.foo")
    ensures TranslateKey("{context}.{key}", DevFoo) == Ok("dev.foo")
  {
    TestLookups();
    ContextKeyText();
    PlainNames();
    PlainLiterals();
    ParseThree("context", ".", "key");
    ResolveThree("context", ".", "key", TestParams, "dev", "foo");
    ResolveThree("context", ".", "key", DevFoo, "dev", "foo");
    DevFooText();
  }

  /** Literal runs and placeholder order are kept exactly; without `customer_id` the template does not resolve. */
  lemma TranslateCustomer()
    ensures TranslateKey("{context}.someapp.{customer_id}.{key}", TestParams) == Ok("dev.someapp.12345678.foo")
    ensures TranslateKey("{context}.someapp.{customer_id}.{key}", DevFoo) == Err(UnboundPlaceholder("customer_id"))
  {
    TestLookups();
    CustomerText();
    PlainNames();
    PlainLiterals();
    ParseFive("context", ".someapp.", "customer_id", ".", "key");
    ResolveFiveBound("context", ".someapp.", "customer_id", ".", "key", TestParams, "dev", "12345678", "foo");
    ResolveFiveUnbound("context", ".someapp.", "customer_id", ".", "key", DevFoo);
    DevCustomerText();
  }

  /** `{region}` has no bound parameter, so translation fails and yields no key at all. */
  lemma TranslateRegion()
    ensures TranslateKey("{context}.region.{region}.{key}", TestParams) == Err(UnboundPlaceholder("region"))
  {
    TestLookups();
    RegionText();
    PlainNames();
    PlainLiterals();
    ParseFive("context", ".region.", "region", ".", "key");
    ResolveFiveUnbound("context", ".region.", "region", ".", "key", TestParams);
  }

  /** `{context}.someapp.{key}` resolves from the route parameters alone. */
  lemma TranslateSomeapp()
    ensures TranslateKey("{context}.someapp.{key}", DevFoo) == Ok("dev.someapp.foo")
  {
    TestLookups();
    SomeappText();
    PlainNames();
    PlainLiterals();
    ParseThree("context", ".someapp.", "key");
    ResolveThree("context", ".someapp.", "key", DevFoo, "dev", "foo");
    DevSomeappText();
  }

  /** With only the route parameters bound, the write key is the less specific `dev.someapp.foo`. */
  lemma WriteKeyForDevFoo()
    ensures TranslateKey(SearchList[0], DevFoo) == Err(UnboundPlaceholder("customer_id"))
    ensures TranslateKey(SearchList[1], DevFoo) == Ok("dev.someapp.foo")
    ensures ResolveForWrite(SearchList, DevFoo) == Ok("dev.someapp.foo")
  {
    TranslateCustomer();
    TranslateSomeapp();
    assert SearchList[1..][0] == SearchList[1];
  }

  /** The read skips the candidate needing `customer_id` and finds `dev.someapp.foo`. */
  lemma FindForDevFoo(store: map<string, string>)
    requires "dev.someapp.foo" in store
    ensures FindFirst(SearchList, DevFoo, store) == Found("dev.someapp.foo", store["dev.someapp.foo"])
  {
    WriteKeyForDevFoo();
    assert SearchList[1..][0] == SearchList[1];
  }

  /**
   * The write-then-read flow: POST `/lode/dev/foo` with form fields
   * `key=test.foo`, `value=test.bar`, `customer_id=123456`, then GET
   * `/lode/dev/foo?customer_id=123456` on a fresh in-memory store.
   */
  method KeyScenario() returns (written: Result<Entry>, read: Match)
    ensures written == Ok(Entry("dev.someapp.foo", "test.bar"))
    ensures read == Found("dev.someapp.foo", "test.bar")
  {
    var store := new MemoryStore();
    var setReq := Request(DevFoo, [], [Param("key", "test.foo"), Param("value", "test.bar"), Param("customer_id", "123456")]);
    written := SetKey(store, SearchList, setReq);
    WriteKeyForDevFoo();
    var getReq := Request(DevFoo, [Param("customer_id", "123456")], []);
    read := GetKey(store, SearchList, getReq);
    FindForDevFoo(store.data);
  }
}
