/**
 * The candidate search over the configured `search` list: reads try the
 * templates in order and take the first one that resolves to a stored key;
 * writes take the first one that resolves at all.
 */
module KeySearch {
  import opened KeyErrors
  import opened KeyResolver

  /** What a read finds: the resolved storage key and its value, or nothing. */
  datatype Match = Found(key: string, value: string) | NotFound

  /** The key candidate `template` denotes in `store`, when it resolves and is stored. */
  function Probe(template: string, p: Params, store: map<string, string>): Option<string>
  {
    var k := TranslateKey(template, p);
    if k.Ok? && k.value in store then Some(k.value) else None
  }

  /**
   * Tries the candidates in list order, skipping those that do not resolve
   * from `p` or resolve to an absent key; the first hit wins.
   */
  function FindFirst(search: seq<string>, p: Params, store: map<string, string>): (r: Match)
    ensures r.NotFound? <==> forall i :: 0 <= i < |search| ==> Probe(search[i], p, store).None?
    ensures r.Found? ==> r.key in store && r.value == store[r.key]
    ensures r.Found? ==> exists i :: 0 <= i < |search| && Probe(search[i], p, store) == Some(r.key) &&
                                     forall j :: 0 <= j < i ==> Probe(search[j], p, store).None?
  {
    if search == [] then NotFound
    else
      match Probe(search[0], p, store)
      case Some(k) => Found(k, store[k])
      case None =>
        var r := FindFirst(search[1..], p, store);
        assert forall i :: 1 <= i < |search| ==> search[i] == search[1..][i - 1];
        if r.Found? then
          var i :| 0 <= i < |search[1..]| && Probe(search[1..][i], p, store) == Some(r.key) &&
                   forall j :: 0 <= j < i ==> Probe(search[1..][j], p, store).None?;
          assert Probe(search[i + 1], p, store) == Some(r.key);
          r
        else r
  }

  /**
   * The write key: the first candidate, in list order, that resolves from `p`.
   * When none does, the failure of the first (most specific) candidate is
   * reported; an empty list reports NoCandidate.
   */
  function ResolveForWrite(search: seq<string>, p: Params): (r: Result<string>)
    ensures r.Ok? <==> exists i :: 0 <= i < |search| && TranslateKey(search[i], p).Ok?
    ensures r.Ok? ==> exists i :: 0 <= i < |search| && TranslateKey(search[i], p) == r &&
                                  forall j :: 0 <= j < i ==> TranslateKey(search[j], p).Err?
    ensures r.Err? ==> r == (if search == [] then Err(NoCandidate) else TranslateKey(search[0], p))
  {
    if search == [] then Err(NoCandidate)
    else
      var first := TranslateKey(search[0], p);
      if first.Ok? then first
      else
        var r := ResolveForWrite(search[1..], p);
        assert forall i :: 1 <= i < |search| ==> search[i] == search[1..][i - 1];
        if r.Ok? then
          var i :| 0 <= i < |search[1..]| && TranslateKey(search[1..][i], p) == r &&
                   forall j :: 0 <= j < i ==> TranslateKey(search[1..][j], p).Err?;
          assert TranslateKey(search[i + 1], p) == r;
          r
        else first
  }

  /** A value written under the write key is what a read with the same parameters finds, under that key. */
  lemma {:induction false} WriteThenFind(search: seq<string>, p: Params, store: map<string, string>, value: string)
    requires ResolveForWrite(search, p).Ok?
    ensures var k := ResolveForWrite(search, p).value;
            FindFirst(search, p, store[k := value]) == Found(k, value)
  {
    var k := ResolveForWrite(search, p).value;
    if TranslateKey(search[0], p).Ok? {
      assert Probe(search[0], p, store[k := value]) == Some(k);
    } else {
      assert ResolveForWrite(search[1..], p) == ResolveForWrite(search, p);
      WriteThenFind(search[1..], p, store, value);
    }
  }

  /** Searching `front + back` is searching `front`, then `back` if nothing matched. */
  lemma {:induction false} FindFirstAppend(front: seq<string>, back: seq<string>, p: Params, store: map<string, string>)
    ensures FindFirst(front + back, p, store) ==
            if FindFirst(front, p, store).Found? then FindFirst(front, p, store) else FindFirst(back, p, store)
  {
    if front == [] {
      assert front + back == back;
    } else {
      assert (front + back)[0] == front[0];
      assert (front + back)[1..] == front[1..] + back;
      FindFirstAppend(front[1..], back, p, store);
    }
  }

  /** When two candidates both hit, the one listed first decides the match, so order matters. */
  lemma EarlierCandidateWins(a: string, b: string, p: Params, store: map<string, string>)
    requires Probe(a, p, store).Some? && Probe(b, p, store).Some?
    ensures FindFirst([a, b], p, store) == Found(Probe(a, p, store).value, store[Probe(a, p, store).value])
    ensures FindFirst([b, a], p, store) == Found(Probe(b, p, store).value, store[Probe(b, p, store).value])
  {
  }
}
