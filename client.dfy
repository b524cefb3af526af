/**
 * The client's invocation layer: the request key of a call, the options it hands the fetcher,
 * the one-shot call object whose `key()` and `suspend()` switch its fetch off, the routing of the
 * fetcher's answer, the memoised tree of path proxies, and `withMiddleware`.  The fetcher itself
 * is the environment: a call hands it a request and is later told how the request settled.
 */
module Client {
  import opened Wrappers
  import opened Values
  import opened Wire
  import opened Procedures

  // ---------------------------------------------------------------------------------------------
  // Request keys
  // ---------------------------------------------------------------------------------------------

  /** `parts.filter(Boolean)` on texts and `null`s (here `None`): empty texts and `null`s are dropped. */
  function Compact(parts: seq<Option<string>>): (r: seq<string>)
    ensures forall i :: 0 <= i < |r| ==> r[i] != ""
    ensures |r| <= |parts|
    decreases |parts|
  {
    if parts == [] then []
    else
      var rest := Compact(parts[1..]);
      match parts[0]
      case Some(s) => if s != "" then [s] + rest else rest
      case None => rest
  }

  /** `parts.join(sep)`. */
  function Join(parts: seq<string>, sep: string): string
    decreases |parts|
  {
    if parts == [] then "" else if |parts| == 1 then parts[0] else parts[0] + sep + Join(parts[1..], sep)
  }

  /** `` `${url ?? ""}${path}` ``: the procedure's path under the client's base url. */
  function BaseOf(url: Option<string>, path: string): string {
    url.GetOr("") + path
  }

  /** `` `input=${encodeURIComponent(JSON.stringify(input))}` ``. */
  function InputQuery(c: Codec, input: Value): string {
    "input=" + c.encode(c.stringify(input))
  }

  /**
   * `getKey(input)`: the base and, for a truthy input, its encoded query part, joined by `?`; a
   * falsy input leaves the base alone and an empty base leaves the query part alone.
   */
  function GetKey(c: Codec, url: Option<string>, path: string, input: Value): (k: string)
    ensures BaseOf(url, path) != "" && Truthy(input) ==> k == BaseOf(url, path) + "?" + InputQuery(c, input)
    ensures BaseOf(url, path) == "" && Truthy(input) ==> k == InputQuery(c, input)
    ensures !Truthy(input) ==> k == BaseOf(url, path)
  {
    var base := BaseOf(url, path);
    var query := if Truthy(input) then Some(InputQuery(c, input)) else None;
    var parts := [Some(base), query];
    assert parts[1..] == [query] && [query][1..] == [];
    assert Compact([query]) == if Truthy(input) then [InputQuery(c, input)] else [];
    assert Compact(parts) == (if base != "" then [base] else []) + Compact([query]);
    assert base != "" && Truthy(input) ==> Join([base, InputQuery(c, input)], "?") == base + "?" + Join([InputQuery(c, input)], "?");
    Join(Compact(parts), "?")
  }

  /** The input a call keys on: a mutation keys on its path alone. */
  function KeyedInput(kind: Kind, input: Value): Value {
    if kind == Mutate then Undefined else input
  }

  /** A mutation's key is the same whatever its input; a query's differs for inputs whose encoded texts differ. */
  lemma KeyOfKind(c: Codec, url: Option<string>, path: string, kind: Kind, x: Value, y: Value)
    ensures kind == Mutate ==> GetKey(c, url, path, KeyedInput(kind, x)) == BaseOf(url, path)
    ensures kind == Query && Truthy(x) && Truthy(y) && InputQuery(c, x) != InputQuery(c, y) ==>
      GetKey(c, url, path, KeyedInput(kind, x)) != GetKey(c, url, path, KeyedInput(kind, y))
  {
    var base := BaseOf(url, path);
    if kind == Query && Truthy(x) && Truthy(y) && InputQuery(c, x) != InputQuery(c, y) && base != "" {
      var kx := base + "?" + InputQuery(c, x);
      var ky := base + "?" + InputQuery(c, y);
      assert kx[|base| + 1..] == InputQuery(c, x);
      assert ky[|base| + 1..] == InputQuery(c, y);
    }
  }

  // ---------------------------------------------------------------------------------------------
  // Request options
  // ---------------------------------------------------------------------------------------------

  /** `{ method, ...(isPost && { body: JSON.stringify({ input }) }) }`. */
  function Defaults(c: Codec, kind: Kind, input: Value): seq<(string, Value)> {
    [("method", Str(if kind == Mutate then "POST" else "GET"))]
    + (if kind == Mutate then [("body", Str(c.stringify(Obj([("input", input)]))))] else [])
  }

  /** The options the fetcher receives: the defaults, then the global options, then the call's own. */
  function RequestOptions(c: Codec, kind: Kind, input: Value, globalOptions: Value, options: Value): seq<(string, Value)> {
    Assigned(Assigned(Defaults(c, kind, input), globalOptions), options)
  }

  /** `v` is an object with its own key `k`. */
  predicate Owns(v: Value, k: string) {
    v.Obj? && HasKey(v.entries, k)
  }

  /**
   * Each option comes from the call's options if they have it, else from the global options if
   * they have it, else from the defaults; so a caller can override even the method.
   */
  lemma OptionPrecedence(c: Codec, kind: Kind, input: Value, globalOptions: Value, options: Value, k: string)
    requires globalOptions.Obj? ==> DistinctKeys(globalOptions.entries)
    requires options.Obj? ==> DistinctKeys(options.entries)
    ensures Owns(options, k) ==> Lookup(RequestOptions(c, kind, input, globalOptions, options), k) == Prop(options, k)
    ensures !Owns(options, k) && Owns(globalOptions, k) ==>
      Lookup(RequestOptions(c, kind, input, globalOptions, options), k) == Prop(globalOptions, k)
    ensures !Owns(options, k) && !Owns(globalOptions, k) ==>
      Lookup(RequestOptions(c, kind, input, globalOptions, options), k) == Lookup(Defaults(c, kind, input), k)
  {
    var d := Defaults(c, kind, input);
    var g := Assigned(d, globalOptions);
    if Owns(options, k) {
      AssignWins(g, options.entries, k);
    } else {
      if options.Obj? {
        AssignKeepsOthers(g, options.entries, k);
      }
      if Owns(globalOptions, k) {
        AssignWins(d, globalOptions.entries, k);
      } else if globalOptions.Obj? {
        AssignKeepsOthers(d, globalOptions.entries, k);
      }
    }
  }

  /** A query is sent as a GET with no body, a mutation as a POST carrying `{ input }`. */
  lemma DefaultOptions(c: Codec, kind: Kind, input: Value)
    ensures Lookup(Defaults(c, kind, input), "method") == Str(if kind == Mutate then "POST" else "GET")
    ensures kind == Query ==> !HasKey(Defaults(c, kind, input), "body")
    ensures kind == Mutate ==> Lookup(Defaults(c, kind, input), "body") == Str(c.stringify(Obj([("input", input)])))
  {
    var d := Defaults(c, kind, input);
    if kind == Mutate {
      assert d[1] == ("body", Str(c.stringify(Obj([("input", input)]))));
    }
  }

  // ---------------------------------------------------------------------------------------------
  // Routing of the fetcher's answer
  // ---------------------------------------------------------------------------------------------

  /** How the fetcher's promise settles: with a result, or by rejecting. */
  datatype Reply = Answered(result: Value) | FetchFailed

  /** How a call's promise settles. */
  datatype Outcome = Resolves(v: Value) | Rejects(e: Value)

  /** A user callback invoked by a call, with its arguments. */
  datatype Callback = OnError(code: Value, input: Value) | OnSuccess(result: Value, input: Value)

  /**
   * The per-call options: the data fields (`swr`, `method`, `skipCache`, …), and whether the
   * `onError` and `onSuccess` callbacks are present.
   */
  datatype CallOptions = CallOptions(fields: Value, onError: bool, onSuccess: bool)

  /** `options?.swr === true`: only the boolean `true` switches a call to rejecting. */
  predicate ThrowsOnError(options: CallOptions) {
    Prop(options.fields, "swr") == Bool(true)
  }

  /** `reject(e)`: a real rejection when throwing on errors, and otherwise a resolution to `{ error: e }`. */
  function Fail(e: Value, throwOnError: bool): (o: Outcome)
    ensures throwOnError ==> o == Rejects(e)
    ensures !throwOnError ==> o.Resolves? && IsError(o.v) && Prop(o.v, "error") == e
  {
    if throwOnError then Rejects(e) else Resolves(ErrorObject(e))
  }

  /**
   * The `.then`/`.catch` routing: error-shaped results and rejected fetches fail, everything else
   * resolves.  A call rejects exactly when it throws on errors and the fetch failed or answered with
   * an error, carrying the error code, or `"SERVER_ERROR"` for a failed fetch; without `swr: true`
   * every failure arrives as the data `{ error: code }`; any other answer is the result, unchanged.
   */
  function Settle(reply: Reply, throwOnError: bool): (o: Outcome)
    ensures o.Rejects? <==> throwOnError && (reply.FetchFailed? || IsError(reply.result))
    ensures o.Rejects? ==> o.e == (if reply.FetchFailed? then Str("SERVER_ERROR") else Prop(reply.result, "error"))
    ensures !throwOnError && reply.FetchFailed? ==> o == Resolves(ErrorObject(Str("SERVER_ERROR")))
    ensures !throwOnError && reply.Answered? && IsError(reply.result) ==> o == Resolves(ErrorObject(Prop(reply.result, "error")))
    ensures reply.Answered? && !IsError(reply.result) ==> o == Resolves(reply.result)
  {
    match reply
    case FetchFailed => Fail(Str("SERVER_ERROR"), throwOnError)
    case Answered(result) => if IsError(result) then Fail(Prop(result, "error"), throwOnError) else Resolves(result)
  }

  /**
   * The callbacks the routing invokes: `onError` with the code exactly for an error-shaped answer,
   * `onSuccess` with the result exactly for any other answer, none for a rejected fetch, and never
   * more than one.
   */
  function Callbacks(reply: Reply, options: CallOptions, input: Value): (r: seq<Callback>)
    ensures |r| <= 1
    ensures reply.FetchFailed? ==> r == []
    ensures options.onError && reply.Answered? ==> (OnError(Prop(reply.result, "error"), input) in r <==> IsError(reply.result))
    ensures options.onSuccess && reply.Answered? ==> (OnSuccess(reply.result, input) in r <==> !IsError(reply.result))
    ensures !options.onError ==> forall k :: 0 <= k < |r| ==> !r[k].OnError?
    ensures !options.onSuccess ==> forall k :: 0 <= k < |r| ==> !r[k].OnSuccess?
  {
    match reply
    case FetchFailed => []
    case Answered(result) =>
      if IsError(result) then (if options.onError then [OnError(Prop(result, "error"), input)] else [])
      else if options.onSuccess then [OnSuccess(result, input)] else []
  }

  // ---------------------------------------------------------------------------------------------
  // The path tree
  // ---------------------------------------------------------------------------------------------

  /** A path proxy: the callable for one procedure path of one kind. */
  class ProxyNode {
    const kind: Kind
    const path: string

    constructor (kind: Kind, path: string)
      ensures this.kind == kind && this.path == path
    {
      this.kind := kind;
      this.path := path;
    }
  }

  /** What reading a property of a proxy yields. */
  datatype Property =
    | KeyFunction(kind: Kind, path: string)
    | TypeName(name: string)
    | FunctionMember(name: string)
    | ChildProxy(node: ProxyNode)

  /** The names an arrow function has or inherits, which `prop in target` finds. */
  const FunctionMembers: set<string> := {
    "length", "name", "apply", "bind", "call", "toString", "constructor", "arguments", "caller",
    "hasOwnProperty", "isPrototypeOf", "propertyIsEnumerable", "toLocaleString", "valueOf",
    "__proto__", "__defineGetter__", "__defineSetter__", "__lookupGetter__", "__lookupSetter__"
  }

  /** A property name that reads as a route segment rather than as something of the proxy itself. */
  predicate IsSegment(prop: string) {
    prop != "__getKey" && prop != "__type" && prop !in FunctionMembers
  }

  /** `` `${type}/${nextPath};` ``, the memo key of a child proxy. */
  function CacheKey(kind: Kind, path: string): string {
    KindName(kind) + "/" + path + ";"
  }

  /** Different kinds or different paths never share a memo key. */
  lemma CacheKeyInjective(k1: Kind, p1: string, k2: Kind, p2: string)
    ensures CacheKey(k1, p1) == CacheKey(k2, p2) <==> k1 == k2 && p1 == p2
  {
    var a := CacheKey(k1, p1);
    var b := CacheKey(k2, p2);
    if a == b {
      assert a[0] == KindName(k1)[0] && b[0] == KindName(k2)[0];
    }
    if a == b && k1 == k2 {
      var n := |KindName(k1)| + 1;
      assert a[n..|a| - 1] == p1;
      assert b[n..|b| - 1] == p2;
    }
  }

  /** A client: the two root proxies and the memo table of child proxies they share. */
  class Client {
    const codec: Codec
    const url: Option<string>
    const globalOptions: Value
    const query: ProxyNode
    const mutate: ProxyNode
    var proxyCache: map<string, ProxyNode>

    /** Every memoised proxy is filed under its own kind and path. */
    ghost predicate Valid()
      reads this
    {
      forall key :: key in proxyCache ==> key == CacheKey(proxyCache[key].kind, proxyCache[key].path)
    }

    /** `createClient({ url })(fetcher, globalOptions)`: fresh roots with the empty path, and an empty memo table. */
    constructor (codec: Codec, url: Option<string>, globalOptions: Value)
      ensures Valid()
      ensures this.codec == codec && this.url == url && this.globalOptions == globalOptions
      ensures query.kind == Query && query.path == "" && mutate.kind == Mutate && mutate.path == ""
      ensures fresh(query) && fresh(mutate) && query != mutate
      ensures proxyCache == map[]
    {
      this.codec := codec;
      this.url := url;
      this.globalOptions := globalOptions;
      query := new ProxyNode(Query, "");
      mutate := new ProxyNode(Mutate, "");
      proxyCache := map[];
    }

    /**
     * The proxy's `get` trap: `__getKey` and `__type` read the proxy itself, a name the function
     * has reads that member, and any other name is a route segment whose child proxy is created
     * once and then served from the memo table.
     */
    method Get(node: ProxyNode, prop: string) returns (r: Property)
      requires Valid()
      modifies this
      ensures Valid()
      ensures !IsSegment(prop) ==> proxyCache == old(proxyCache)
      ensures prop == "__getKey" ==> r == KeyFunction(node.kind, node.path)
      ensures prop == "__type" ==> r == TypeName(KindName(node.kind))
      ensures prop != "__getKey" && prop != "__type" && prop in FunctionMembers ==> r == FunctionMember(prop)
      ensures IsSegment(prop) ==>
        var key := CacheKey(node.kind, node.path + "/" + prop);
        && r.ChildProxy? && r.node.kind == node.kind && r.node.path == node.path + "/" + prop
        && (key in old(proxyCache) ==> r.node == old(proxyCache)[key])
        && (key !in old(proxyCache) ==> fresh(r.node))
        && proxyCache == old(proxyCache)[key := r.node]
    {
      if prop == "__getKey" {
        return KeyFunction(node.kind, node.path);
      }
      if prop == "__type" {
        return TypeName(KindName(node.kind));
      }
      if prop in FunctionMembers {
        return FunctionMember(prop);
      }
      var nextPath := node.path + "/" + prop;
      var key := CacheKey(node.kind, nextPath);
      var child: ProxyNode;
      if key in proxyCache {
        child := proxyCache[key];
        CacheKeyInjective(child.kind, child.path, node.kind, nextPath);
      } else {
        child := new ProxyNode(node.kind, nextPath);
      }
      proxyCache := proxyCache[key := child];
      r := ChildProxy(child);
    }

    /** `func(input, options)`: a new call of `node`, whose fetch is still to be decided. */
    method Invoke(node: ProxyNode, input: Value, options: CallOptions) returns (call: Call)
      ensures fresh(call)
      ensures call.node == node && call.codec == codec && call.url == url && call.globalOptions == globalOptions
      ensures call.input == input && call.options == options
      ensures call.phase == Pending && !call.suspended && call.callbacks == [] && call.fetcherCalls == 0
    {
      call := new Call(codec, url, globalOptions, node, input, options);
    }
  }

  /** Reading the same segment of the same proxy twice yields the identical child proxy. */
  method RepeatedAccess(client: Client, node: ProxyNode, prop: string) returns (first: Property, second: Property)
    requires client.Valid() && IsSegment(prop)
    modifies client
    ensures first.ChildProxy? && second == first
  {
    first := client.Get(node, prop);
    second := client.Get(node, prop);
  }

  // ---------------------------------------------------------------------------------------------
  // One call
  // ---------------------------------------------------------------------------------------------

  /** A request handed to the fetcher. */
  datatype FetchRequest = FetchRequest(key: string, options: Value)

  /** Where a call's promise stands: before its deferred check, waiting for the fetcher, or settled. */
  datatype Phase = Pending | Fetching | Done(outcome: Outcome)

  /**
   * The promise returned by `func(input, options)`, with its `key` and `suspend` methods.  The
   * deferred check is `RunMicrotask`; `Deliver` is the fetcher's promise settling.
   */
  class Call {
    const codec: Codec
    const url: Option<string>
    const globalOptions: Value
    const node: ProxyNode
    const input: Value
    const options: CallOptions
    var suspended: bool
    var phase: Phase
    var callbacks: seq<Callback>
    ghost var fetcherCalls: nat

    constructor (codec: Codec, url: Option<string>, globalOptions: Value, node: ProxyNode, input: Value, options: CallOptions)
      ensures this.codec == codec && this.url == url && this.globalOptions == globalOptions
      ensures this.node == node && this.input == input && this.options == options
      ensures phase == Pending && !suspended && callbacks == [] && fetcherCalls == 0
    {
      this.codec := codec;
      this.url := url;
      this.globalOptions := globalOptions;
      this.node := node;
      this.input := input;
      this.options := options;
      suspended := false;
      phase := Pending;
      callbacks := [];
      fetcherCalls := 0;
    }

    /** The key of this call: `getKey(isPost ? undefined : input)`. */
    function RequestKey(): string {
      GetKey(codec, url, node.path, KeyedInput(node.kind, input))
    }

    /** `key()`: marks the call as suspended and returns its key. */
    method Key() returns (k: string)
      modifies this
      ensures k == RequestKey()
      ensures suspended && phase == old(phase) && callbacks == old(callbacks) && fetcherCalls == old(fetcherCalls)
    {
      suspended := true;
      k := RequestKey();
    }

    /** `suspend()`: marks the call as suspended and returns `[input, options, proxy]`. */
    method Suspend() returns (r: (Value, CallOptions, ProxyNode))
      modifies this
      ensures r == (input, options, node)
      ensures suspended && phase == old(phase) && callbacks == old(callbacks) && fetcherCalls == old(fetcherCalls)
    {
      suspended := true;
      r := (input, options, node);
    }

    /**
     * The deferred check: a suspended call resolves to `null` without fetching; any other call
     * hands its key and merged options to the fetcher.
     */
    method RunMicrotask() returns (request: Option<FetchRequest>)
      requires phase == Pending
      modifies this
      ensures suspended == old(suspended) && callbacks == old(callbacks)
      ensures old(suspended) ==> request == None && phase == Done(Resolves(Null)) && fetcherCalls == old(fetcherCalls)
      ensures !old(suspended) ==>
        && request == Some(FetchRequest(RequestKey(), Obj(RequestOptions(codec, node.kind, input, globalOptions, options.fields))))
        && phase == Fetching && fetcherCalls == old(fetcherCalls) + 1
    {
      if suspended {
        phase := Done(Resolves(Null));
        request := None;
      } else {
        var opts := RequestOptions(codec, node.kind, input, globalOptions, options.fields);
        fetcherCalls := fetcherCalls + 1;
        phase := Fetching;
        request := Some(FetchRequest(RequestKey(), Obj(opts)));
      }
    }

    /** The fetcher's promise settles: the callbacks run and the call settles as routed. */
    method Deliver(reply: Reply)
      requires phase == Fetching
      modifies this
      ensures phase == Done(Settle(reply, ThrowsOnError(options)))
      ensures callbacks == old(callbacks) + Callbacks(reply, options, input)
      ensures suspended == old(suspended) && fetcherCalls == old(fetcherCalls)
    {
      callbacks := callbacks + Callbacks(reply, options, input);
      phase := Done(Settle(reply, ThrowsOnError(options)));
    }
  }

  /** The segments and strings of the test below. */
  lemma TestSegments()
    ensures IsSegment("users") && IsSegment("getUser")
    ensures ("" + "/" + "users") + "/" + "getUser" == "/users/getUser"
    ensures BaseOf(Some("/api"), "/users/getUser") == "/api/users/getUser"
  {
  }

  /**
   * A suspended call never reaches the fetcher: `client.query.users.getUser()` on the client for
   * `/api`, asked for its key before the deferred check, keys on `/api/users/getUser` and resolves
   * to `null`.
   */
  method SuspendedCallDoesNotFetch(c: Codec) returns (key: string, outcome: Phase, requested: bool)
    ensures key == "/api/users/getUser"
    ensures outcome == Done(Resolves(Null)) && !requested
  {
    TestSegments();
    var client := new Client(c, Some("/api"), Undefined);
    var users := client.Get(client.query, "users");
    var getUser := client.Get(users.node, "getUser");
    var call := client.Invoke(getUser.node, Undefined, CallOptions(Undefined, false, false));
    key := call.Key();
    var request := call.RunMicrotask();
    outcome := call.phase;
    requested := request.Some?;
  }

  // ---------------------------------------------------------------------------------------------
  // Fetcher middleware
  // ---------------------------------------------------------------------------------------------

  /** `middleware.reduce((fetcher, middleware) => middleware(fetcher), fetcher)`. */
  function WithMiddleware<F>(fetcher: F, middleware: seq<F -> F>): F
    decreases |middleware|
  {
    if middleware == [] then fetcher else WithMiddleware(middleware[0](fetcher), middleware[1..])
  }

  /** The reference reading: the last middleware wraps all the others, `mn(…m1(f))`. */
  function Nested<F>(fetcher: F, middleware: seq<F -> F>): F
    decreases |middleware|
  {
    if middleware == [] then fetcher
    else middleware[|middleware| - 1](Nested(fetcher, middleware[..|middleware| - 1]))
  }

  /** Appending a middleware wraps the composed fetcher once more. */
  lemma {:induction false} WithMiddlewareAppend<F>(fetcher: F, middleware: seq<F -> F>, m: F -> F)
    ensures WithMiddleware(fetcher, middleware + [m]) == m(WithMiddleware(fetcher, middleware))
    decreases |middleware|
  {
    if middleware != [] {
      assert (middleware + [m])[1..] == middleware[1..] + [m];
      WithMiddlewareAppend(middleware[0](fetcher), middleware[1..], m);
    }
  }

  /** The fold composes the middleware with the last one outermost. */
  lemma {:induction false} WithMiddlewareNests<F>(fetcher: F, middleware: seq<F -> F>)
    ensures WithMiddleware(fetcher, middleware) == Nested(fetcher, middleware)
    decreases |middleware|
  {
    if middleware != [] {
      var n := |middleware| - 1;
      assert middleware == middleware[..n] + [middleware[n]];
      WithMiddlewareAppend(fetcher, middleware[..n], middleware[n]);
      WithMiddlewareNests(fetcher, middleware[..n]);
    }
  }
}
