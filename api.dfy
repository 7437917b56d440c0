/**
 * The read and write handlers behind `GET /lode/:context/:key` and
 * `POST /lode/:context/:key`. Keys are resolved from the route parameters
 * only; query-string and form parameters are never bound to placeholders.
 */
module KeyApi {
  import opened KeyErrors
  import opened KeyResolver
  import opened KeySearch
  import opened KeyStore

  /** The parts of a request the handlers look at. */
  datatype Request = Request(route: Params, query: Params, form: Params)

  /** A stored pair, as the handlers report it. */
  datatype Entry = Entry(key: string, value: string)

  /**
   * A form field's value: the value of the first field called `name`, or the
   * empty string when the form has no such field.
   */
  function PostForm(form: Params, name: string): (v: string)
    ensures (exists i :: 0 <= i < |form| && form[i].key == name && v == form[i].value &&
                         forall j :: 0 <= j < i ==> form[j].key != name) ||
            ((forall i :: 0 <= i < |form| ==> form[i].key != name) && v == "")
  {
    LookupFound(form, name);
    match Lookup(form, name)
    case Some(x) => x
    case None => ""
  }

  /**
   * What a write of `req` stores and reports: the key of the first search-list
   * candidate that translates from the route parameters, with the form's
   * `value` field; when no candidate translates, the first candidate's failure,
   * or NoCandidate for an empty list.
   */
  function WriteOutcome(search: seq<string>, req: Request): (r: Result<Entry>)
    ensures r.Ok? <==> exists i :: 0 <= i < |search| && TranslateKey(search[i], req.route).Ok?
    ensures r.Ok? ==> exists i :: 0 <= i < |search| && TranslateKey(search[i], req.route) == Ok(r.value.key) &&
                                  forall j :: 0 <= j < i ==> TranslateKey(search[j], req.route).Err?
    ensures r.Ok? ==> r.value.value == PostForm(req.form, "value")
    ensures r.Err? ==> r.error == (if search == [] then NoCandidate else TranslateKey(search[0], req.route).error)
  {
    match ResolveForWrite(search, req.route)
    case Ok(k) => Ok(Entry(k, PostForm(req.form, "value")))
    case Err(e) => Err(e)
  }

  /** Whatever the store held, the entry a successful write reports is what a read of the same route then finds. */
  lemma WriteOutcomeReadBack(search: seq<string>, req: Request, store: map<string, string>)
    ensures var r := WriteOutcome(search, req);
            r.Ok? ==> FindFirst(search, req.route, store[r.value.key := r.value.value]) == Found(r.value.key, r.value.value)
  {
    var r := WriteOutcome(search, req);
    if r.Ok? {
      WriteThenFind(search, req.route, store, r.value.value);
    }
  }

  /** A write depends on the route and the form's `value` field only: the query string and other form fields play no part. */
  lemma WriteOutcomeIgnores(search: seq<string>, a: Request, b: Request)
    requires a.route == b.route
    requires PostForm(a.form, "value") == PostForm(b.form, "value")
    ensures WriteOutcome(search, a) == WriteOutcome(search, b)
  {
  }

  /**
   * Read handler: walks the search list in order and returns the first
   * candidate key, resolved from the route parameters, that the store holds.
   */
  method GetKey(store: MemoryStore, search: seq<string>, req: Request) returns (r: Match)
    ensures r == FindFirst(search, req.route, store.data)
  {
    var i := 0;
    while i < |search|
      invariant 0 <= i <= |search|
      invariant FindFirst(search[i..], req.route, store.data) == FindFirst(search, req.route, store.data)
    {
      assert search[i..][0] == search[i] && search[i..][1..] == search[i + 1..];
      var key := TranslateKey(search[i], req.route);
      if key.Ok? {
        var found, value := store.Get(key.value);
        if found {
          return Found(key.value, value);
        }
      }
      i := i + 1;
    }
    return NotFound;
  }

  /**
   * Write handler: resolves the write key from the route parameters and
   * stores the form's `value` field under it; on failure nothing is stored.
   */
  method SetKey(store: MemoryStore, search: seq<string>, req: Request) returns (r: Result<Entry>)
    modifies store
    ensures r == WriteOutcome(search, req)
    ensures r.Ok? ==> store.data == old(store.data)[r.value.key := r.value.value]
    ensures r.Err? ==> store.data == old(store.data)
  {
    var key := ResolveForWrite(search, req.route);
    if key.Err? {
      return Err(key.error);
    }
    var value := PostForm(req.form, "value");
    store.Set(key.value, value);
    return Ok(Entry(key.value, value));
  }

  /**
   * A write followed by a read of the same route: the read returns the value
   * written, under the key the write resolved, whatever the query string holds.
   */
  method SetThenGet(store: MemoryStore, search: seq<string>, setReq: Request, getReq: Request)
    returns (written: Result<Entry>, read: Match)
    requires setReq.route == getReq.route
    modifies store
    ensures written == WriteOutcome(search, setReq)
    ensures written.Ok? ==> read == Found(written.value.key, written.value.value)
    ensures written.Err? ==> read == FindFirst(search, getReq.route, old(store.data))
  {
    written := SetKey(store, search, setReq);
    WriteOutcomeReadBack(search, setReq, old(store.data));
    read := GetKey(store, search, getReq);
  }
}
