# nanorpc, modelled in Dafny

nanorpc exposes typed remote procedures, queries and mutations, behind one HTTP endpoint. A
client calls them through an object whose property paths mirror the server's router. This
project models the core of both ends and proves properties of that model.

**Server.**
- **Procedure builder** (`Procedures`). `createProcedure`, `schema`, `middleware`, `use`,
  `query` and `mutate` each build a new procedure state and leave their receiver unchanged.
  The state holds insertion-ordered sets of schema steps and middleware steps, the type, and
  the main handler. Steps are objects, so "the same step" means reference identity, as it does
  in a JavaScript `Set`.
- **Procedure executor** (`Procedures.Invoke`, `Procedures.Execution`). The schemas run first,
  in set order. Then a continuation `next` drives the middleware chain. Every call of `next`
  shares one counter and takes the next unused middleware, or the main handler once the
  middlewares are used up. An `RPCError` or a throw short-circuits the procedure. The procedure
  then settles as `{error: code}`, or rejects when it runs in throwing mode.
- **Dispatcher** (`Dispatch`). `handleRequest` checks the route and reads the input for the
  HTTP method. It copies the client context into the server context and splices the last
  segment off the route array; both objects are changed in place. It then walks the router
  and runs the procedure it finds in throwing mode. The outcome becomes a `{data, status}`
  response.
- **Value utilities** (`Primitives`). `modifyTypes` turns query-string texts back into
  booleans and numbers, and `getUnknownErrorMessage` extracts a message from anything thrown.
- **`RPCError` record** (`Errors`).

**Client.**
- **Calls** (`Client`):
  - the request key of a call, and the options it hands the fetcher;
  - the one-shot call object, whose `key()` and `suspend()` switch its fetch off;
  - the routing of the fetcher's answer, which returns errors as data unless `swr: true`;
  - the memoised tree of path proxies;
  - `withMiddleware`;
  - `isError`, shared with the server as `Values.IsError`.
- **SWR integration** (`Swr`):
  - the input read back from a key;
  - the dedupe layer, a state machine over a key-to-operation map;
  - the cache layer, which serves GETs from the SWR cache and writes results through;
  - their composition, and the `cache.set` / `cache.read` helpers.

**How the environment is modelled.**
- JavaScript values are the datatype `Values.Value`. A number is identified by its canonical
  text, and an object is its list of own entries in insertion order (the JavaScript rule
  that lists integer-like keys first is not modelled; see `Values.SetEntry` under Left out).
- JSON, percent-encoding, `URLSearchParams` and the float round trip are kept abstract in
  `Wire.Codec`. They are constrained only by the laws in `Wire.Lawful`, which the JavaScript
  built-ins satisfy.
- User functions (schemas, middlewares, handlers), the fetcher and the SWR store are
  parameters of the model. Awaits, the deferred check of a call, and zero-delay timers are
  explicit events or methods.

**Modelling choices where the code differs from what one might expect.** The model follows
the code in each case:
- Middleware context is replaced wholesale by what a middleware passes to `next`; it is never
  merged (`Procedures.ContextReplaced`).
- A route that stops at a sub-router is called and answers 500. Only a route that reaches
  nothing is a 404 (`Dispatch.UnroutableResponses`).
- Dedupe has no time window. After a caller's await fulfils, a zero-delay timer deletes the
  entry by key. When the await rejects, no timer is set and the rejected entry stays. Every
  later GET for that key joins the rejected operation without fetching, until a non-GET
  overwrites the entry (`Swr.RejectedKeyStays`, `Swr.RejectionPoisonsKey`).
- `createClient` reads `url` from an options object. The client tests pass the text `"/api"`
  directly but expect keys under `/api`. The model takes the url as the options object
  provides it, so `Client.SuspendedCallDoesNotFetch` builds its client with the url `"/api"`.

## Model

| member | source | states |
|---|---|---|
| Errors.NewRpcError | packages/server/src/error.ts:4-14 | the error keeps the code and status, its message is the given one or empty, and its name is `RPCError` |
| Errors.CauseNotRetained | packages/server/src/error.ts:8-13 | the `cause` option is accepted and leaves no trace on the error |
| Values.ErrorObject | packages/server/src/index.ts:288-295 | `{error: code}` satisfies `isError` and carries `code` under `error` |
| Values.SetEntry | packages/server/src/request.ts:63 | assigning a key gives it the new value and changes no other key; an existing key keeps its position and a new one is appended (the JavaScript order of integer-like keys is not modelled) |
| Values.Assigned | packages/server/src/request.ts:63 | `Object.assign` from `undefined`, `null`, a non-object or an empty object leaves the target unchanged |
| Values.AssignAddsKeys | packages/server/src/request.ts:63 | after `Object.assign` every key of the source is a key of the target |
| Values.AssignKeepsOthers | packages/server/src/request.ts:63 | a key that the source lacks keeps the target's value |
| Values.AssignWins | packages/client/src/index.ts:166-171 | a key that the source has takes the source's value, whatever the target held |
| Wire.QueryPart | packages/server/src/request.ts:6 | `split("?")[1]` is undefined exactly when there is no `?`, and never contains `?` |
| Wire.QueryPartOfJoin | packages/server/src/request.ts:6 | splitting `base + "?" + query` recovers `query` when neither part holds a `?` |
| Wire.DoubleDecoding | packages/server/src/request.ts:8-10 | the text that reaches `JSON.parse` is the percent-encoded text exactly when that text has no `%` |
| Wire.ReadEncodedInput | packages/server/src/request.ts:8-10 | without `%`, the `input` parameter parses as its JSON text does |
| Primitives.ModifyPrimitives | packages/server/src/utils.ts:1-17 | the rewrite keeps the shape of arrays and objects, with keys in order, and applies the callback to exactly the leaves |
| Primitives.LeavesOfModified | packages/server/src/utils.ts:5-16 | the leaves of the result are the callback's images of the input's leaves, in order |
| Primitives.ModifyTwice | packages/server/src/utils.ts:1-17 | rewriting twice with a leaf-preserving idempotent callback is rewriting once |
| Primitives.ConvertLeaf | packages/server/src/utils.ts:20-35 | "true" and "false" become booleans, numerals become numbers, and only strings ever change |
| Primitives.ModifyTypesShape | packages/server/src/utils.ts:19-36 | `modifyTypes` keeps the input's shape and converts its leaves one by one |
| Primitives.ModifyTypesIdempotent | packages/server/src/utils.ts:19-36 | `modifyTypes` of its own output changes nothing |
| Primitives.UnknownErrorMessage | packages/server/src/utils.ts:38-43 | an Error yields its message, anything else its `String` conversion |
| Procedures.Add | packages/server/src/index.ts:325-326 | `set.add` keeps the set duplicate-free, keeps the old elements first, and adds the new one at most once |
| Procedures.AddAllAppendsMissing | packages/server/src/index.ts:397-400 | adding all of `t` appends exactly the elements of `t` not yet present, in `t`'s order |
| Procedures.Merged | packages/server/src/index.ts:395-400 | merging keeps the receiver's steps first and ends with the steps of both sets |
| Procedures.MissingElems | packages/server/src/index.ts:397-400 | the appended elements are exactly those of `t` outside `s` |
| Procedures.CreateProcedure | packages/server/src/index.ts:421-435 | the initial state is a query with the no-op handler, no schemas, no middlewares and an empty error |
| Procedures.AddSchema | packages/server/src/index.ts:337-354 | a schema joins the schema set at its end unless it is already there, and nothing else changes |
| Procedures.AddMiddleware | packages/server/src/index.ts:320-335 | a middleware joins the middleware set at its end unless it is already there, and nothing else changes |
| Procedures.Use | packages/server/src/index.ts:388-409 | `use` appends the other builder's missing schemas and middlewares in order, and keeps type, handler and error |
| Procedures.MakeQuery | packages/server/src/index.ts:356-370 | `query(f)` gives a procedure of type query whose handler is `f`, with the same steps |
| Procedures.MakeMutate | packages/server/src/index.ts:372-386 | `mutate(f)` gives a procedure of type mutate whose handler is `f`, with the same steps |
| Procedures.SharedBuilderOnce | packages/server/src/index.ts:388-409 | a builder used by two branches that are merged again contributes each of its steps once |
| Procedures.UseIdempotent | packages/server/src/index.ts:395-400 | using the same builder a second time changes nothing |
| Procedures.SchemaFailure | packages/server/src/index.ts:236-242 | a throwing schema becomes a SERVER_ERROR with status 500 and the thrown value's message |
| Procedures.ApplySchema | packages/server/src/index.ts:230-247 | a Zod schema only validates; a function schema replaces the input; a throw or a returned RPCError stops validation |
| Procedures.SchemasRunInOrder | packages/server/src/index.ts:228-249 | the schemas run in set order: all of them when all pass, otherwise up to and including the first failure |
| Procedures.Wrap | packages/server/src/index.ts:268-278 | a returned value becomes a `MiddlewareResult` with the call's input and context; an RPCError or a throw is raised |
| Procedures.NextSpec | packages/server/src/index.ts:265-279 | every call of `next` advances the shared counter |
| Procedures.CallsSpec | packages/server/src/index.ts:268-270 | the `next` calls made by one middleware never move the counter back |
| Procedures.Failure | packages/server/src/index.ts:282-296 | in throwing mode the error is rethrown; otherwise an RPCError becomes `{error: code}` and anything else `{error: "SERVER_ERROR"}` |
| Procedures.NextOrdered | packages/server/src/index.ts:262-279 | however often middlewares call `next`, each runs at most once, in position order; no schema runs and the no-op main does nothing |
| Procedures.CallsOrdered | packages/server/src/index.ts:265-270 | the same ordering holds for the rest of one middleware's `next` calls |
| Procedures.SchemasBeforeChain | packages/server/src/index.ts:228-264 | no schema runs after a middleware or the handler, and middleware-only mode runs no schema and no handler |
| Procedures.RelayChain | packages/server/src/index.ts:265-281 | relaying middlewares each run once, in order, then the handler on the input and context the last one passed; the data is the handler's result |
| Procedures.ContextReplaced | packages/server/src/index.ts:265-270 | a middleware passing `{auth: true}` makes the handler see exactly `{auth: true}` |
| Procedures.ShortCircuitAt | packages/server/src/index.ts:265-279 | a middleware at position `k`, reached through relaying middlewares, that returns an RPCError without calling `next` raises it: exactly middlewares `j..k` run, the counter stops at `k + 1`, and no handler runs |
| Procedures.MiddlewareShortCircuit | packages/server/src/index.ts:228-296 | in any mode, once the schemas pass, such a middleware `k` settles the procedure with that error (`{error: code}` unless throwing); after the schema trace exactly middlewares `0..k` run, and the handler never does |
| Procedures.ErrorValues | packages/server/src/index.ts:228-296 | a handler's RPCError resolves to `{error: code}`; a rejecting Zod schema resolves to SERVER_ERROR before the handler runs |
| Procedures.Execution.Next | packages/server/src/index.ts:265-279 | the continuation's outcome, new counter and trace are those of the chain from the old counter |
| Procedures.Execution.RunCalls | packages/server/src/index.ts:268-270 | one middleware's remaining `next` calls run as specified, until one of them raises |
| Procedures.Invoke | packages/server/src/index.ts:220-299 | a call settles, and runs its steps, as the specification of schemas then chain says |
| Dispatch.InputFromUrl | packages/server/src/request.ts:5-13 | no query part gives `{input: undefined}`; otherwise `{input: parsed}`, failing exactly when decoding or parsing throws |
| Dispatch.GetInput | packages/server/src/request.ts:15-32 | GET reads the URL, POST the body's `input`, OPTIONS nothing; other methods give no result; reading throws exactly when the URL input throws |
| Dispatch.GetReadsEncodedInput | packages/server/src/request.ts:5-17 | a GET whose input parameter is encoded JSON without `%` reads the parsed value with `modifyTypes` applied |
| Dispatch.GetWithoutInputParam | packages/server/src/request.ts:8-10 | a query part without an `input` parameter parses the text "null" |
| Dispatch.ClientContextEmpty | packages/server/src/request.ts:15-31 | the client context is `undefined` or `{}` for every method |
| Dispatch.RouteArray.Splice | packages/server/src/request.ts:65 | `splice` removes and returns the normalised range and keeps the rest in order |
| Dispatch.SpliceStart | packages/server/src/request.ts:65 | a negative start counts from the end; the start is clamped into the array |
| Dispatch.SpliceEnd | packages/server/src/request.ts:65 | the deleted range stays inside the array |
| Dispatch.SpliceLast | packages/server/src/request.ts:65 | `splice(length - 1, 1)` removes the last segment, and removes nothing from an empty array |
| Dispatch.SplicedLast | packages/server/src/request.ts:65 | what remains after the splice is every segment but the last |
| Dispatch.ContextObject.Assign | packages/server/src/request.ts:63 | the context object's entries become the `Object.assign` of the old entries and the source |
| Dispatch.Child | packages/server/src/request.ts:66-67 | a lookup finds a sub-router's child, a procedure's `__type` tag, and nothing otherwise |
| Dispatch.WalkAppend | packages/server/src/request.ts:66-67 | walking a path in two parts is walking it whole |
| Dispatch.WalkNothing | packages/server/src/request.ts:66 | once the walk finds nothing it stays at nothing |
| Dispatch.TargetIsWalk | packages/server/src/request.ts:65-67 | the parent of the last segment, then its lookup, is the walk of the whole route |
| Dispatch.WalkTextIsKindName | packages/server/src/index.ts:298 | the only text a walk can reach is a procedure's `__type`, "query" or "mutate" |
| Dispatch.StatusOr500 | packages/server/src/request.ts:92 | `status \|\| 500` is the status when it is non-zero, and 500 otherwise |
| Dispatch.ErrorResponse | packages/server/src/request.ts:88-99 | an RPCError answers its code and message with its status or 500; anything else answers SERVER_ERROR with 500 |
| Dispatch.Reply | packages/server/src/request.ts:102-110 | once the procedure settles, the request is answered, never rejected |
| Dispatch.Call | packages/server/src/request.ts:69-110 | whatever the route reached, the request is answered, never rejected |
| Dispatch.HandleRequest | packages/server/src/request.ts:34-111 | the response is the dispatch specification's; a missing route leaves the context alone; the route loses its last segment; the context gains the client context |
| Dispatch.Route | packages/server/src/request.ts:61-67 | the target is looked up before the splice; the route array and context change as stated |
| Dispatch.CallTarget | packages/server/src/request.ts:69-110 | calling the target answers as the specification of a call says |
| Dispatch.ContextUnchanged | packages/server/src/request.ts:61-63 | copying the client context never changes the server context |
| Dispatch.RoutedToProcedure | packages/server/src/request.ts:79-110 | a routed procedure runs with the request input in throwing mode; GET and POST answer its data, OPTIONS answers status 200 |
| Dispatch.UnroutableResponses | packages/server/src/request.ts:66-99 | a route that reaches nothing answers 404 NOT_FOUND; one that stops at a sub-router or a tag answers 500 SERVER_ERROR |
| Dispatch.EmptyRoute | packages/server/src/request.ts:65-69 | an empty route looks up the key "undefined" at the root, so a router without that key answers 404 |
| Dispatch.RejectsExactly | packages/server/src/request.ts:50-61 | the request rejects exactly when the route is valid and reading the input fails |
| Dispatch.FailureResponses | packages/server/src/request.ts:88-99 | a failure is answered with a status: an RPCError with its code and message (500 when it has no status), anything else with SERVER_ERROR and 500 |
| Client.GetKey | packages/client/src/index.ts:140-142 | base plus `?input=…` for a truthy input; the base alone for a falsy input; no `?` when the base is empty |
| Client.KeyOfKind | packages/client/src/index.ts:154 | a mutation's key ignores its input; queries with differently encoded inputs get different keys |
| Client.OptionPrecedence | packages/client/src/index.ts:166-171 | each option comes from the call's options, else the global options, else the defaults |
| Client.DefaultOptions | packages/client/src/index.ts:166-168 | a query defaults to GET without a body; a mutation defaults to POST with the body `JSON.stringify({input})` |
| Client.Fail | packages/client/src/index.ts:157-160 | `reject(e)` rejects when throwing on errors, and otherwise resolves to `{error: e}` |
| Client.Settle | packages/client/src/index.ts:157-185 | a call rejects exactly when it throws on errors and the fetch failed or answered an error, carrying the code or SERVER_ERROR; without `swr: true` every failure resolves to `{error: code}`; other answers resolve unchanged |
| Client.Callbacks | packages/client/src/index.ts:172-185 | `onError` runs with the code and input exactly for an error-shaped answer, `onSuccess` with the result exactly for any other answer, none for a rejected fetch, and at most one runs |
| Client.CacheKeyInjective | packages/client/src/index.ts:204-205 | two memo keys are equal exactly when both the kind and the path are equal |
| Client.Client.constructor | packages/client/src/index.ts:214-217 | the two roots are fresh, distinct and at the empty path, and the memo table is empty |
| Client.Client.Get | packages/client/src/index.ts:193-209 | `__getKey`, `__type` and function members read the proxy; any other name gives the child at `path/name`, memoised |
| Client.Client.Invoke | packages/client/src/index.ts:144-147 | a new call is pending, not suspended, and has fetched nothing |
| Client.RepeatedAccess | packages/client/src/index.ts:206-207 | reading the same segment twice yields the identical child proxy |
| Client.Call.Key | packages/client/src/index.ts:152-155 | `key()` suspends the call and returns its key, which omits a mutation's input |
| Client.Call.Suspend | packages/client/src/index.ts:148-151 | `suspend()` suspends the call and returns `[input, options, proxy]` |
| Client.Call.RunMicrotask | packages/client/src/index.ts:162-171 | a suspended call resolves to `null` without fetching; any other call fetches once, with its key and merged options |
| Client.Call.Deliver | packages/client/src/index.ts:172-185 | the call settles as routed, and its callbacks are recorded |
| Client.SuspendedCallDoesNotFetch | packages/client/tests/client.test.tsx:21-43 | `client.query.users.getUser()` under `/api` keys on `/api/users/getUser` and, once suspended, never fetches |
| Client.WithMiddlewareAppend | packages/client/src/index.ts:106-109 | appending a middleware wraps the composed fetcher once more |
| Client.WithMiddlewareNests | packages/client/src/index.ts:99-110 | the fold equals `mn(…m1(f))`, with the last middleware outermost |
| Swr.KeyQueryPart | packages/client/src/swr.ts:9 | the text after the key's `?` is exactly its `input=` part |
| Swr.KeyInputText | packages/client/src/swr.ts:11-12 | the key's input reaches `JSON.parse` intact exactly when its JSON text has no `%` |
| Swr.KeyInputRoundTrip | packages/client/src/swr.ts:8-13 | `getInput(getKey(input))` parses the input's own JSON text when that text has no `%` |
| Swr.FalsyInputReadsUndefined | packages/client/src/swr.ts:9-10 | a falsy input reads back as `undefined` |
| Swr.EmptyBaseReadsUndefined | packages/client/src/swr.ts:9-10 | with an empty base, every input reads back as `undefined` |
| Swr.FiledStep | packages/client/src/swr.ts:106-113 | every in-flight entry stays a request for its own key |
| Swr.AwaitsOwnKey | packages/client/src/swr.ts:106-109 | a caller awaits an operation for its key: a new one, or, for a GET, the one in flight |
| Swr.ConcurrentGets | packages/client/src/swr.ts:106-109 | `n` overlapping identical GETs act as one, with one fetcher call, or none if the key is in flight |
| Swr.OtherMethodsAlwaysCall | packages/client/src/swr.ts:106-108 | `n` non-GETs call the fetcher `n` times, and the last one holds the entry |
| Swr.SingleFlight | packages/client/src/swr.ts:105-109 | until a timer fires, GETs fetch at most once per key, and never for a key in flight |
| Swr.RejectedKeyStays | packages/client/src/swr.ts:105-113 | once an operation rejects and no timer is pending for its key, the entry stays through further GETs, rejections and timers, and no such GET reaches the fetcher |
| Swr.RejectionPoisonsKey | packages/client/src/swr.ts:105-113 | a GET whose fetch rejects leaves its entry, so the next GET for the key makes no fetcher call and joins the rejected operation |
| Swr.FireDeletesByKey | packages/client/src/swr.ts:110-113 | a fired timer deletes its key, whatever the key holds, and no other entry |
| Swr.OverwrittenEntryForgotten | packages/client/src/swr.ts:106-113 | a GET's timer removes a later POST's entry, so the next GET fetches again |
| Swr.DedupeLayer.constructor | packages/client/src/swr.ts:103 | the layer starts idle, having fetched nothing |
| Swr.DedupeLayer.Call | packages/client/src/swr.ts:106-109 | the arriving caller updates the layer as the dedupe specification says and counts one fetch exactly when it starts a call |
| Swr.DedupeLayer.Resumed | packages/client/src/swr.ts:109-110 | a caller's fulfilled await schedules its key's timer |
| Swr.DedupeLayer.FireTimer | packages/client/src/swr.ts:110-113 | the oldest timer fires as specified |
| Swr.CacheConsulted | packages/client/src/swr.ts:167-179 | a GET without `swr` or `skipCache` is served exactly when truthy data is stored; a fetched result is written through exactly when `swr` is unset |
| Swr.ReadAfterWrite | packages/client/src/swr.ts:167-178 | after a GET writes its truthy result through, the next GET is served that result |
| Swr.ReadAfterWriteAsWritten | packages/client/src/swr.ts:167-178 | as written, the next GET after a write-through is served the `data` property of the stored result |
| Swr.CachedReadAsWritten | packages/client/src/swr.ts:168-170 | as written, that second GET is served `"foo".data`, which is `undefined` |
| Swr.SwrCache.Complete | packages/client/src/swr.ts:174-178 | a write-through fetch stores its result under the key |
| Swr.SwrCache.Set | packages/client/src/swr.ts:126-136 | `cache.set` stores the data under the call's key and suspends the call |
| Swr.SwrCache.Read | packages/client/src/swr.ts:137-149 | `cache.read` returns the stored data, or `undefined`, and suspends the call |
| Swr.SwrStack.constructor | packages/client/src/swr.ts:184-191 | the composed middleware, over the cache layer as written or the corrected one, starts with an idle dedupe layer and an empty cache |
| Swr.SwrStack.Request | packages/client/src/swr.ts:188-190 | dedupe decides first; only a request it passes on reaches the cache layer (as written or corrected), which serves it or calls the fetcher |
| Swr.SwrStack.Settle | packages/client/src/swr.ts:109-110 | a fulfilled operation is written through as planned, and the caller schedules its timer |
| Swr.SwrStack.FireTimer | packages/client/src/swr.ts:110-113 | the oldest timer fires as specified |
| Swr.ThreeConcurrentGets | packages/client/tests/swr.test.tsx:47-67 | three overlapping GETs pass one request on and reach the fetcher once, over either cache layer |
| Swr.SecondGetServedFromCache | packages/client/tests/swr.test.tsx:69-102 | a GET repeated after the first settled is served from the cache, with one fetcher call in all; the corrected layer serves the first result, the layer as written its `data` property |

## Findings

| source | as written | input that shows it | evidently intended | confidence | as-written member | corrected member |
|---|---|---|---|---|---|---|
| packages/client/src/swr.ts:168-170 | a cache hit returns `cached?.data`, although `cached` is already the stored data (`cache.get(key)?.data`) | a GET for `/api/users/getUser` whose earlier result `"foo"` was written through: the repeated GET resolves to `undefined` instead of `"foo"` | return `cached`, as `cache.read` does (packages/client/src/swr.ts:144-148) | medium, not executed | Swr.CachedReadAsWritten | Swr.ReadAfterWrite |

`Swr.CachePlanAsWritten` is the cache layer as written, and `Swr.CachePlan` is the corrected
layer. The composed middleware `Swr.SwrStack` runs either, chosen by its `corrected` flag.
`Swr.SecondGetServedFromCache` states the answer of both.

## Left out

- Logging (`console.error`) and all I/O. The Next.js adapters that build the route array and
  write the response are out of scope.
- Floating point. A number is its canonical text, and `parseFloat`/`String` is the abstract
  predicate `isNumeral` (which covers "NaN" and "Infinity").
- JSON and percent-encoding. They are abstract, constrained only by the laws in `Wire.Lawful`.
- Zod's validation engine. A Zod schema is an opaque acceptance predicate with an issue
  message.
- Async schema functions. A schema's return value is used as it is. A schema that is neither a
  function nor a Zod schema is skipped by the loop; the model has no such schema.
- Middleware shapes beyond a fixed plan:
  - a middleware that catches a failing `next` with `try`/`catch`;
  - a middleware whose later `next` arguments depend on earlier `next` results.
  A middleware is a plan: its `next` calls, with arguments fixed by its own input and context,
  then a result that may depend on the last `next` result.
- In-place mutation of the context object by handlers and middlewares. Values are not shared.
- `RPCError` instances as data. An RPCError is not a `Value`, so one nested inside a returned
  value is not modelled.
- A truthy route that is not an array. The route is null or an array of values.
- Properties a router walk picks up from prototypes (`toString`, a procedure's `length`,
  characters of a text). Only own children and `__type` are found.
- `Client.Get`: `prop in target` is modelled by an explicit list of the names an arrow
  function has or inherits (`Client.FunctionMembers`). Symbol-keyed properties are not
  modelled.
- The `onError` and `onSuccess` callbacks are recorded, not run. A callback that throws, and
  so sends the call to its `.catch`, is not modelled.
- The callbacks are also spread into the fetcher's options. There the options are only the
  data fields.
- Spreading a global or per-call option that is a string or an array (which would contribute
  index keys). Such an option contributes nothing here.
- Microtask order relative to other promises. Each call has its one deferred check, and any
  number of `key()` / `suspend()` calls before it.
- SWR's cache and `mutate` internals. The store maps each key to the data of its state.
  Revalidation, broadcasting, and a rejected fetch inside `mutate` are not modelled.
- The values of deduplicated operations. Callers are shown to await the same operation, not to
  receive equal results.
- Timers. Zero-delay timers fire in the order they were set. Delays such as the tests' `sleep`
  are not modelled.
- The React hooks `useQuery`, `useImmutableQuery` and `useMutation`, and all compile-time type
  inference.
- Procedures.AddAll: its own contract states only that the result is duplicate-free. The
  appended elements are stated by `Procedures.AddAllAppendsMissing` and `Procedures.Merged`.
- Values.SetEntry: a new key is always appended. JavaScript lists integer-like keys (array
  indices) first, in ascending order, so `Object.assign({b: 1}, {"1": 2})` has the keys `"1"`
  and `"b"`. The model does not capture that order; lookups and the key set are unaffected.
- Swr.KeyInputRoundTrip: it ends at `JSON.parse(JSON.stringify(input))`, because the codec's
  JSON round trip is left abstract.
