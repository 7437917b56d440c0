# lode key template resolution, modelled in Dafny

`lode` is a namespaced key-value service over HTTP. A client does not name a
storage key directly: it names a route `/lode/:context/:key`, and the service
derives the storage key from a configured template such as
`{context}.someapp.{key}` by substituting the route parameters for the
`{name}` placeholders. The configuration holds an ordered `search` list of
templates. A read tries them in order and returns the first key that both
resolves from the route parameters and is present in the store; a write
stores under the first template that resolves.

The model is based on the behaviour that `api/key/key_test.go` pins down: the
translation table, the parameter list passed to `TranslateKey`, and the
write-then-read flow of `TestKey`. Where the test is silent, the model follows
the design the engine describes, and the decisions taken are listed below.

Files, leaf first:

- `errors.dfy` (`KeyErrors`): the error taxonomy (`MalformedTemplate`,
  `UnboundPlaceholder(name)`, `NoCandidate`) and `Option`/`Result`.
- `template.dfy` (`KeyTemplate`): templates as sequences of `Literal` and
  `Placeholder` segments, the parser, the renderer and the round trip between
  them.
- `resolver.dfy` (`KeyResolver`): route parameters as an ordered list of
  name/value pairs (first occurrence wins, as the router's parameter list
  does), all-or-nothing resolution, and `TranslateKey` = parse then resolve.
- `search.dfy` (`KeySearch`): the read search `FindFirst` over the search
  list and an abstract store, and the write-key choice `ResolveForWrite`.
- `store.dfy` (`KeyStore`): the in-memory backend as a class over a map.
- `api.dfy` (`KeyApi`): the read handler (a loop over the search list, proved
  equal to `FindFirst`), the write handler, and a write-then-read method.
- `texts.dfy` (`KeyTexts`): identities between string literals, such as
  `"dev" + "." + "foo" == "dev.foo"`. They only help the solver with the
  concrete scenarios and state nothing about the service.
- `scenarios.dfy` (`KeyScenarios`): the test table and the test flow as
  concrete lemmas and a method.

Decisions where the test leaves the behaviour open:

- Placeholder syntax: `{name}`. A `{` with no `}` after it, or with another
  `{` before its `}`, is `MalformedTemplate`; a stray `}` is literal text; the
  empty template is malformed. Names are not validated further.
- Resolution reports the first unbound placeholder in template order.
- The read search skips a candidate on any translation failure (an unbound
  placeholder or a malformed template) as well as on an absent key.
- The write key is a decision of this model. The write resolves the key from
  the route parameters only and takes the first search-list template that
  resolves. Candidates that cannot be bound are skipped silently rather than
  failing the write. The stored value is the form field `value` (the empty
  string when absent). The form field `key` and every other form field play
  no part. The test only requires that its one write to `/lode/dev/foo`,
  which carries `customer_id` only as a form field, lands on
  `dev.someapp.foo`. This rule meets that; so would another one, such as
  always writing under `{context}.someapp.{key}`. When no template resolves,
  the write reports the failure of the first candidate, or `NoCandidate` for
  an empty list.
- The design description of the engine says that the parameter set is built
  from route parameters plus query and form values. The model binds
  placeholders from the route parameters only. The reason is the call at
  `api/key/key_test.go:39`: `TranslateKey` takes a router parameter list
  (`*gin.Params`), which holds route parameters and nothing else. The test's
  read result does not decide the question. With `customer_id` bound, the
  first candidate resolves to `dev.someapp.123456.foo`, which is not stored,
  so the read would still find `dev.someapp.foo`.

## Model

| member | source | states |
|---|---|---|
| `KeyTemplate.ParseTemplate` | api/key/key_test.go:25-27 | a parsed template is non-empty, well formed and renders back to the input text; the only parse failure is MalformedTemplate |
| `KeyTemplate.RenderParse` | api/key/key_test.go:25-27 | whatever the segment parser returns is well formed and renders back exactly to its input, literal separators included; a leading `{` opens a placeholder |
| `KeyTemplate.ParseRender` | api/key/key_test.go:25-27 | every well-formed template is parsed back exactly from its rendering |
| `KeyTemplate.ParseOkIff` | api/key/key_test.go:25-27 | template text parses if and only if it is the rendering of some well-formed template |
| `KeyTemplate.PlainTextIsLiteral` | api/key/key_test.go:39 | non-empty text without `{` is one literal segment |
| `KeyResolver.Lookup` | api/key/key_test.go:32-36 | a name is unbound exactly when no route parameter carries it |
| `KeyResolver.LookupFirst` | api/key/key_test.go:32-36 | a bound name takes the value of its first occurrence in the parameter list |
| `KeyResolver.Resolve` | api/key/key_test.go:38-54 | resolution succeeds if and only if every placeholder is bound; a failure names a placeholder of the template that has no bound parameter |
| `KeyResolver.ResolveFailsOnFirstUnbound` | api/key/key_test.go:49-52 | the placeholder a failure names is the first unbound one in template order; no partial key is returned |
| `KeyResolver.ResolveSingle` | api/key/key_test.go:25-27 | a literal segment resolves to its own text, a bound placeholder to its bound value, and an unbound placeholder fails with UnboundPlaceholder naming it |
| `KeyResolver.ResolveAppend` | api/key/key_test.go:26 | resolving a concatenation succeeds iff both parts do and yields the two keys concatenated: literal text and placeholder order are kept |
| `KeyResolver.ResolveLiteralOnly` | api/key/key_test.go:39 | a template without placeholders resolves to its own text whatever the parameters |
| `KeyResolver.ResolveIgnoresUnused` | api/key/key_test.go:25-36 | two parameter lists that agree on the names a template mentions give the same result: unused parameters play no part |
| `KeyResolver.TranslateKey` | api/key/key_test.go:39 | a MalformedTemplate error comes exactly from a template that does not parse; a parsed template translates iff all its placeholders are bound |
| `KeyResolver.TranslatePlainText` | api/key/key_test.go:39 | a non-empty configured template without `{` translates to itself for any parameters |
| `KeySearch.FindFirst` | api/key/key_test.go:63-65 | not found iff no candidate resolves to a stored key; otherwise the match is a stored key with its stored value, produced by some candidate all of whose predecessors miss |
| `KeySearch.FindFirstAppend` | api/key/key_test.go:63-65 | searching `front + back` is searching `front`, then `back` only if `front` found nothing |
| `KeySearch.EarlierCandidateWins` | api/key/key_test.go:63-65 | when two candidates both hit, the one listed first decides the match in either order |
| `KeySearch.ResolveForWrite` | api/key/key_test.go:83-97 | the write key exists iff some candidate resolves, and is then the translation of a candidate all of whose predecessors fail; otherwise the first candidate's failure (NoCandidate for an empty list) is reported |
| `KeySearch.WriteThenFind` | api/key/key_test.go:116-148 | after storing a value under the write key, a read with the same parameters finds exactly that key and value, whatever else the store holds |
| `KeyStore.MemoryStore.constructor` | api/key/key_test.go:66-67 | a new in-memory store is empty |
| `KeyStore.MemoryStore.Set` | api/key/key_test.go:88-93 | the new contents are the old contents with the key bound to the value; other keys keep their values |
| `KeyStore.MemoryStore.Get` | api/key/key_test.go:116-125 | found iff the key is stored, with the stored value; otherwise the empty string |
| `KeyApi.PostForm` | api/key/key_test.go:83-86 | the result is the value of the first form field with that name (no earlier field has the name), or the empty string when no field has it |
| `KeyApi.WriteOutcome` | api/key/key_test.go:83-97 | a write succeeds iff some search-list candidate translates from the route parameters; it then reports the key of the first such candidate, with the form's `value` field; otherwise it reports the first candidate's failure, or NoCandidate for an empty list |
| `KeyApi.WriteOutcomeReadBack` | api/key/key_test.go:83-148 | whatever the store held, storing a successful write's entry makes a read of the same route find exactly that key and value |
| `KeyApi.WriteOutcomeIgnores` | api/key/key_test.go:83-97 | two requests with the same route and the same form `value` field write the same outcome: the query string, the form field `key` and other form fields play no part |
| `KeyApi.GetKey` | api/key/key_test.go:116-129 | the read handler's loop over the search list returns exactly the candidate search over the route parameters and the current store; the query string plays no part |
| `KeyApi.SetKey` | api/key/key_test.go:83-97 | the handler reports the write outcome and stores its value under its key, leaving the store unchanged on failure |
| `KeyApi.SetThenGet` | api/key/key_test.go:83-148 | after a successful write, a read of the same route returns the written value under the resolved key |
| `KeyScenarios.TestLookups` | api/key/key_test.go:32-36 | the test's route parameters bind `context`, `key` and `customer_id` and leave `region` unbound |
| `KeyScenarios.TranslateContextKey` | api/key/key_test.go:25 | `{context}.{key}` translates to `dev.foo`, with or without the unused `customer_id` |
| `KeyScenarios.TranslateCustomer` | api/key/key_test.go:26 | `{context}.someapp.{customer_id}.{key}` translates to `dev.someapp.12345678.foo`, and fails on `customer_id` when only `context` and `key` are bound |
| `KeyScenarios.TranslateRegion` | api/key/key_test.go:27 | `{context}.region.{region}.{key}` fails with UnboundPlaceholder `region` |
| `KeyScenarios.TranslateSomeapp` | api/key/key_test.go:65 | `{context}.someapp.{key}` translates to `dev.someapp.foo` from the route parameters alone |
| `KeyScenarios.WriteKeyForDevFoo` | api/key/key_test.go:63-65 | with route parameters `context=dev`, `key=foo` the first candidate is skipped for `customer_id` and the write key is `dev.someapp.foo` |
| `KeyScenarios.FindForDevFoo` | api/key/key_test.go:116-146 | a read of `/lode/dev/foo` finds `dev.someapp.foo` whenever the store holds it |
| `KeyScenarios.KeyScenario` | api/key/key_test.go:57-148 | the test flow on a fresh store: the write reports `dev.someapp.foo` = `test.bar` and the read returns `dev.someapp.foo` = `test.bar`, not the route key `foo` or the form field `test.foo` |

## Left out

- HTTP routing, the gin engine, CORS middleware and the test recorders: transport plumbing around the handlers; a request is modelled as its route, query and form parameter lists.
- Status codes: a successful handler result stands for the 200 response the test checks; the codes sent on failure are not visible and are not modelled.
- JSON encoding and decoding of responses: the handlers return the `(key, value)` pair or an error value directly.
- YAML configuration loading: the search list is a given immutable sequence of template strings, and parsing happens on each translation rather than once at start-up, so a malformed entry is skipped by reads and by writes instead of refusing start-up.
- The relational storage backend and backend errors: only the in-memory map is modelled, and its `Set` cannot fail.
- Concurrency across requests: the search list is read-only and each request is modelled as running alone.
- `KeyResolver.Resolve`: determinism is not stated separately, since every Dafny function is deterministic.
- Whether a write should first look for an existing entry under another candidate template is left open by the design; the model never deduplicates on write.
