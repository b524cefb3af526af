/**
 * The HTTP-level dispatcher, `handleRequest`: it checks the route, reads the input for the HTTP
 * method, merges the client context into the server context, resolves the route against the
 * router tree and runs the procedure it finds in throwing mode, mapping the outcome to a
 * `{ data, status }` response.  The route array and the context object are mutated in place.
 */
module Dispatch {
  import opened Wrappers
  import opened Errors
  import opened Values
  import opened Wire
  import opened Primitives
  import opened Procedures

  // ---------------------------------------------------------------------------------------------
  // Reading the input
  // ---------------------------------------------------------------------------------------------

  datatype HttpMethod = Get | Post | Options | OtherMethod(name: string)

  /**
   * `getInputFromUrl(url)`: `{input: undefined}` when the URL has no query part or an empty one,
   * otherwise `{input: <the parsed input parameter>}`; `None` when reading the parameter throws.
   */
  function InputFromUrl(c: Codec, url: Option<string>): (r: Option<Value>)
    ensures r.Some? ==> r.value.Obj? && |r.value.entries| == 1 && r.value.entries[0].0 == "input"
    ensures QueryPart(url.GetOr("")).None? ==> r == Some(Obj([("input", Undefined)]))
    ensures r.None? <==> (match QueryPart(url.GetOr("")) case None => false
                          case Some(q) => q != "" && ReadInputParam(c, q).None?)
  {
    match QueryPart(url.GetOr(""))
    case None => Some(Obj([("input", Undefined)]))
    case Some(query) =>
      if query == "" then Some(Obj([("input", Undefined)]))
      else
        match ReadInputParam(c, query)
        case None => None
        case Some(v) => Some(Obj([("input", v)]))
  }

  /** The destructured `{ input, ctx }` of what `getInput` returned. */
  datatype Parsed = Parsed(input: Value, ctx: Value)

  /** `getInput` either returns an object, throws, or returns `undefined` for an unknown method. */
  datatype InputResult = Read(parsed: Parsed) | Threw | NoInput

  /**
   * `getInput(req)`: GET reads the query through `modifyTypes`; POST takes `body?.input` and a
   * `ctx` from the (type-converted) query, defaulting to `{}`; OPTIONS has no input and an empty
   * context; any other method has no result at all.
   */
  function GetInput(c: Codec, verb: HttpMethod, url: Option<string>, body: Value): (r: InputResult)
    ensures verb.OtherMethod? ==> r == NoInput
    ensures verb == Options ==> r == Read(Parsed(Undefined, Obj([])))
    ensures verb == Post && r.Read? ==> r.parsed.input == Prop(body, "input")
    ensures r.Threw? <==> (verb == Get || verb == Post) && InputFromUrl(c, url).None?
  {
    match verb
    case Get =>
      (match InputFromUrl(c, url)
       case None => Threw
       case Some(o) =>
         var converted := ModifyTypes(o, c.isNumeral);
         Read(Parsed(Prop(converted, "input"), Prop(converted, "ctx"))))
    case Post =>
      (match InputFromUrl(c, url)
       case None => Threw
       case Some(o) =>
         var fromUrl := Prop(ModifyTypes(o, c.isNumeral), "ctx");
         Read(Parsed(Prop(body, "input"), if fromUrl.Undefined? || fromUrl.Null? then Obj([]) else fromUrl)))
    case Options => Read(Parsed(Undefined, Obj([])))
    case OtherMethod(_) => NoInput
  }

  /**
   * A GET request whose query is `input=<percent-encoded JSON>` hands the procedure the parsed
   * value with `modifyTypes` applied, provided the JSON text holds neither `%` nor the URL base a `?`.
   */
  lemma GetReadsEncodedInput(c: Codec, base: string, json: string, body: Value, v: Value)
    requires Lawful(c)
    requires '?' !in base && '%' !in json
    requires c.parse(json) == Some(v)
    ensures GetInput(c, Get, Some(base + "?" + "input=" + c.encode(json)), body)
         == Read(Parsed(ModifyTypes(v, c.isNumeral), Undefined))
  {
    var query := "input=" + c.encode(json);
    assert '?' !in query by {
      assert forall k :: 0 <= k < |query| && k >= 6 ==> query[k] == c.encode(json)[k - 6];
    }
    assert base + "?" + "input=" + c.encode(json) == base + "?" + query;
    QueryPartOfJoin(base, query);
    ReadEncodedInput(c, json);
    var converted := ModifyTypes(Obj([("input", v)]), c.isNumeral);
    ModifyTypesShape(Obj([("input", v)]), c.isNumeral);
    assert converted == Obj([("input", ModifyTypes(v, c.isNumeral))]);
  }

  /** A GET query without an `input` parameter reads the text "null", so the input is `null`. */
  lemma GetWithoutInputParam(c: Codec, url: string, query: string)
    requires Lawful(c)
    requires QueryPart(url) == Some(query) && query != ""
    requires c.searchParam(query, "input").None?
    requires c.parse("null") == Some(Null)
    ensures GetInput(c, Get, Some(url), Undefined) == Read(Parsed(ModifyTypes(Null, c.isNumeral), Undefined))
  {
    assert InputText(c, query) == Some("null");
    var converted := ModifyTypes(Obj([("input", Null)]), c.isNumeral);
    ModifyTypesShape(Obj([("input", Null)]), c.isNumeral);
    assert converted == Obj([("input", ModifyTypes(Null, c.isNumeral))]);
  }

  /**
   * The context sent from the client is never anything: GET has none, POST and OPTIONS give `{}`
   * (the query object only ever has an `input` key).
   */
  lemma ClientContextEmpty(c: Codec, verb: HttpMethod, url: Option<string>, body: Value)
    ensures var r := GetInput(c, verb, url, body);
      r.Read? ==> r.parsed.ctx == Undefined || r.parsed.ctx == Obj([])
  {
    var o := InputFromUrl(c, url);
    if o.Some? {
      ModifyTypesShape(o.value, c.isNumeral);
      var converted := ModifyTypes(o.value, c.isNumeral);
      assert converted.Obj? && |converted.entries| == 1 && converted.entries[0].0 == "input";
      assert !HasKey(converted.entries, "ctx");
    }
  }

  // ---------------------------------------------------------------------------------------------
  // Objects mutated in place
  // ---------------------------------------------------------------------------------------------

  /** The route array `route: string[]` that `handleRequest` splices. */
  class RouteArray {
    var segments: seq<Value>

    constructor (segments: seq<Value>)
      ensures this.segments == segments
    {
      this.segments := segments;
    }

    /**
     * `splice(start, deleteCount)`: a negative start counts from the end (clamped at 0), a start
     * past the end is the end, and at most the remaining elements are removed and returned.
     */
    method Splice(start: int, deleteCount: int) returns (removed: seq<Value>)
      modifies this
      ensures var s := SpliceStart(start, |old(segments)|);
        var e := SpliceEnd(s, deleteCount, |old(segments)|);
        removed == old(segments)[s..e] && segments == old(segments)[..s] + old(segments)[e..]
    {
      var s := SpliceStart(start, |segments|);
      var e := SpliceEnd(s, deleteCount, |segments|);
      removed := segments[s..e];
      segments := segments[..s] + segments[e..];
    }
  }

  function SpliceStart(start: int, length: nat): (s: nat)
    ensures s <= length
    ensures 0 <= start <= length ==> s == start
    ensures start < 0 ==> s == if length + start < 0 then 0 else length + start
  {
    if start < 0 then (if length + start < 0 then 0 else length + start)
    else if start > length then length
    else start
  }

  function SpliceEnd(s: nat, deleteCount: int, length: nat): (e: nat)
    requires s <= length
    ensures s <= e <= length
    ensures 0 <= deleteCount <= length - s ==> e == s + deleteCount
  {
    if deleteCount <= 0 then s
    else if s + deleteCount > length then length
    else s + deleteCount
  }

  /**
   * `route.splice(route.length - 1, 1)` takes off the last segment of a non-empty route and takes
   * nothing off an empty one (the start `-1` is clamped to 0).
   */
  lemma SpliceLast(segments: seq<Value>)
    ensures var s := SpliceStart(|segments| - 1, |segments|);
      var e := SpliceEnd(s, 1, |segments|);
      && (segments == [] ==> segments[s..e] == [] && segments[..s] + segments[e..] == [])
      && (segments != [] ==>
            segments[s..e] == [segments[|segments| - 1]] && segments[..s] + segments[e..] == segments[..|segments| - 1])
  {
    if segments != [] {
      var s := |segments| - 1;
      assert segments[s..s + 1] == [segments[s]];
      assert segments[s + 1..] == [];
    }
  }

  /** The server-side context object, into which `Object.assign` copies the client context. */
  class ContextObject {
    var entries: seq<(string, Value)>

    constructor (entries: seq<(string, Value)>)
      ensures this.entries == entries
    {
      this.entries := entries;
    }

    method Assign(source: Value)
      modifies this
      ensures entries == Assigned(old(entries), source)
    {
      entries := Assigned(entries, source);
    }
  }

  // ---------------------------------------------------------------------------------------------
  // Resolving the route
  // ---------------------------------------------------------------------------------------------

  /** A router tree: a procedure, or named sub-routers. */
  datatype Router = Endpoint(p: Procedure) | Routes(children: map<string, Router>)

  /** What `acc?.[el]` reaches while walking a route: nothing, a router node, or a text property. */
  datatype Found = Nothing | AtNode(node: Router) | AtText(s: string)

  /**
   * `acc?.[key]`: a child of a sub-router, the `__type` tag of a procedure, and otherwise
   * `undefined`.
   */
  function Child(f: Found, key: string): (r: Found)
    ensures f.Nothing? || f.AtText? ==> r.Nothing?
    ensures f.AtNode? && f.node.Routes? ==> (r.Nothing? <==> key !in f.node.children)
    ensures f.AtNode? && f.node.Endpoint? ==> (r.Nothing? <==> key != "__type")
  {
    match f
    case AtNode(Routes(children)) => if key in children then AtNode(children[key]) else Nothing
    case AtNode(Endpoint(p)) => if key == "__type" then AtText(KindName(p.Type())) else Nothing
    case _ => Nothing
  }

  /** `path.reduce((acc, el) => acc?.[el], start)`. */
  function Walk(f: Found, path: seq<string>): Found
    decreases |path|
  {
    if path == [] then f else Walk(Child(f, path[0]), path[1..])
  }

  /** Walking a path is walking its prefix, then the rest. */
  lemma {:induction false} WalkAppend(f: Found, a: seq<string>, b: seq<string>)
    ensures Walk(f, a + b) == Walk(Walk(f, a), b)
    decreases |a|
  {
    if a != [] {
      assert (a + b)[0] == a[0] && (a + b)[1..] == a[1..] + b;
      calc {
        Walk(f, a + b);
        Walk(Child(f, a[0]), a[1..] + b);
        { WalkAppend(Child(f, a[0]), a[1..], b); }
        Walk(Walk(Child(f, a[0]), a[1..]), b);
        Walk(Walk(f, a), b);
      }
    } else {
      assert a + b == b;
    }
  }

  /** Once a walk reaches nothing, nothing is all it reaches. */
  lemma {:induction false} WalkNothing(path: seq<string>)
    ensures Walk(Nothing, path) == Nothing
    decreases |path|
  {
    if path != [] {
      WalkNothing(path[1..]);
    }
  }

  predicate ValidRoute(segments: seq<Value>) {
    forall k :: 0 <= k < |segments| ==> segments[k].Str?
  }

  function Texts(segments: seq<Value>): (r: seq<string>)
    requires ValidRoute(segments)
    ensures |r| == |segments| && forall k :: 0 <= k < |r| ==> segments[k] == Str(r[k])
  {
    seq(|segments|, k requires 0 <= k < |segments| => segments[k].s)
  }

  /**
   * `parent?.[name]`: the last segment looked up in the node the other segments lead to; an empty
   * route has the name `undefined`, which is looked up as the key "undefined" under the root.
   */
  function Target(router: Router, segments: seq<Value>): Found
    requires ValidRoute(segments)
  {
    var path := Texts(segments);
    if path == [] then Child(AtNode(router), "undefined")
    else Child(Walk(AtNode(router), path[..|path| - 1]), path[|path| - 1])
  }

  /** A non-empty route reaches exactly what walking all of its segments from the root reaches. */
  lemma TargetIsWalk(router: Router, segments: seq<Value>)
    requires ValidRoute(segments) && segments != []
    ensures Target(router, segments) == Walk(AtNode(router), Texts(segments))
  {
    var path := Texts(segments);
    var n := |path| - 1;
    assert path == path[..n] + [path[n]];
    WalkAppend(AtNode(router), path[..n], [path[n]]);
  }

  // ---------------------------------------------------------------------------------------------
  // Responses
  // ---------------------------------------------------------------------------------------------

  /** How `handleRequest` settles: a `{ data, status }` response (an absent field is `undefined` / `None`), or a rejection. */
  datatype Handled = Responded(data: Value, status: Option<int>) | Rejects

  const InvalidRoute := Responded(Obj([("error", Str("Invalid route")), ("code", Str("NOT_FOUND"))]), Some(404))
  const NotFound := Responded(ErrorObject(Str("NOT_FOUND")), Some(404))
  const ServerError := Responded(ErrorObject(Str("SERVER_ERROR")), Some(500))

  /** `err.status || 500`. */
  function StatusOr500(status: Option<int>): (s: int)
    ensures s != 0
    ensures status.Some? && status.value != 0 ==> s == status.value
    ensures status.None? || status.value == 0 ==> s == 500
  {
    if status.Some? && status.value != 0 then status.value else 500
  }

  /**
   * The catch block: an RPCError becomes its code and message with its status (500 when it has
   * none); anything else, the TypeError of calling something that is not a function among them,
   * becomes a SERVER_ERROR with status 500.
   */
  function ErrorResponse(t: Thrown): (h: Handled)
    ensures h.Responded? && h.status.Some? && h.status.value != 0 && Prop(h.data, "error").Str?
    ensures t.ThrownRpc? ==> h == Responded(Obj([("error", Str(t.err.error)), ("message", Str(t.err.message))]),
                                            Some(StatusOr500(t.err.status)))
    ensures !t.ThrownRpc? ==> h == ServerError
  {
    match t
    case ThrownRpc(e) => Responded(Obj([("error", Str(e.error)), ("message", Str(e.message))]), Some(StatusOr500(e.status)))
    case _ => ServerError
  }

  /** The executor options of a dispatched call: only middlewares for OPTIONS, always throwing. */
  function CallOptions(verb: HttpMethod): InternalOptions {
    InternalOptions(verb == Options, true)
  }

  /** What the procedure's settlement becomes: `{status: 200}` for OPTIONS, `{data}` otherwise. */
  function Reply(verb: HttpMethod, s: Settled): (h: Handled)
    ensures h.Responded?
  {
    match s
    case Resolved(v) => if verb == Options then Responded(Undefined, Some(200)) else Responded(v, None)
    case Rejected(t) => ErrorResponse(t)
  }

  /** Calling what the route reached. */
  function Call(target: Found, verb: HttpMethod, input: Value, context: seq<(string, Value)>): (h: Handled)
    ensures h.Responded?
  {
    match target
    case Nothing => NotFound
    case AtText(s) => if s == "" then NotFound else ServerError
    case AtNode(Routes(_)) => ServerError
    case AtNode(Endpoint(p)) => Reply(verb, InvokeSpec(p.state, input, Obj(context), CallOptions(verb)).settled)
  }

  /** The whole of `handleRequest` for a route array holding `segments` and a context holding `context`. */
  function DispatchSpec(router: Router, c: Codec, verb: HttpMethod, url: Option<string>, body: Value,
                        segments: seq<Value>, context: seq<(string, Value)>): Handled
  {
    if !ValidRoute(segments) then InvalidRoute
    else
      match GetInput(c, verb, url, body)
      case Threw => Rejects
      case NoInput => Rejects
      case Read(parsed) => Call(Target(router, segments), verb, parsed.input, Assigned(context, parsed.ctx))
  }

  /**
   * `handleRequest(router, { verb, body, url, context, route })`.  A missing route is rejected
   * with 404; otherwise, once the input is read, the context object receives the client context and
   * the route array loses its last segment.
   */
  method HandleRequest(router: Router, c: Codec, verb: HttpMethod, url: Option<string>, body: Value,
                       context: ContextObject, route: RouteArray?)
    returns (h: Handled)
    modifies context, route
    ensures route == null ==> h == InvalidRoute && context.entries == old(context.entries)
    ensures route != null ==>
      h == DispatchSpec(router, c, verb, url, body, old(route.segments), old(context.entries))
    ensures route != null ==>
      var read := ValidRoute(old(route.segments)) && GetInput(c, verb, url, body).Read?;
      && (read ==>
            route.segments == SplicedLast(old(route.segments))
            && context.entries == Assigned(old(context.entries), GetInput(c, verb, url, body).parsed.ctx))
      && (!read ==> route.segments == old(route.segments) && context.entries == old(context.entries))
  {
    if route == null {
      return InvalidRoute;
    }
    var segments := route.segments;
    if exists k :: 0 <= k < |segments| && !segments[k].Str? {
      return InvalidRoute;
    }
    var input := GetInput(c, verb, url, body);
    if !input.Read? {
      return Rejects;
    }
    h := Route(router, verb, input.parsed, context, route);
  }

  /** `handleRequest` once the input is read: merge the context, take off the name, resolve, call. */
  method Route(router: Router, verb: HttpMethod, parsed: Parsed, context: ContextObject, route: RouteArray)
    returns (h: Handled)
    requires ValidRoute(route.segments)
    modifies context, route
    ensures h == Call(Target(router, old(route.segments)), verb, parsed.input, Assigned(old(context.entries), parsed.ctx))
    ensures route.segments == SplicedLast(old(route.segments))
    ensures context.entries == Assigned(old(context.entries), parsed.ctx)
  {
    var segments := route.segments;
    context.Assign(parsed.ctx);
    SpliceLast(segments);
    var removed := route.Splice(|route.segments| - 1, 1);
    var name := if removed == [] then "undefined" else removed[0].s;
    assert route.segments == SplicedLast(segments);
    var parent := Walk(AtNode(router), Texts(route.segments));
    var target := Child(parent, name);
    assert target == Target(router, segments) by {
      if segments != [] {
        assert Texts(route.segments) == Texts(segments)[..|segments| - 1];
      }
    }
    h := CallTarget(target, verb, parsed.input, context.entries);
  }

  /** The call of what the route reached, inside the `try` block. */
  method CallTarget(target: Found, verb: HttpMethod, input: Value, context: seq<(string, Value)>) returns (h: Handled)
    ensures h == Call(target, verb, input, context)
  {
    match target {
      case Nothing => h := NotFound;
      case AtText(s) => h := if s == "" then NotFound else ServerError;
      case AtNode(Routes(_)) => h := ServerError;
      case AtNode(Endpoint(p)) =>
        var settled, trace := Invoke(p, input, Obj(context), CallOptions(verb));
        h := Reply(verb, settled);
    }
  }

  /** The route array after `route.splice(route.length - 1, 1)`. */
  function SplicedLast(segments: seq<Value>): (r: seq<Value>)
    ensures segments != [] ==> r == segments[..|segments| - 1]
    ensures segments == [] ==> r == []
  {
    if segments == [] then [] else segments[..|segments| - 1]
  }

  // ---------------------------------------------------------------------------------------------
  // Properties
  // ---------------------------------------------------------------------------------------------

  /** The client context never changes the server context. */
  lemma ContextUnchanged(c: Codec, verb: HttpMethod, url: Option<string>, body: Value, context: seq<(string, Value)>)
    ensures var r := GetInput(c, verb, url, body);
      r.Read? ==> Assigned(context, r.parsed.ctx) == context
  {
    ClientContextEmpty(c, verb, url, body);
  }

  /**
   * A route that resolves to a procedure runs it with the request input; GET and POST respond with
   * its data and no status, OPTIONS runs only its middlewares and responds with status 200.
   */
  lemma RoutedToProcedure(router: Router, c: Codec, verb: HttpMethod, url: Option<string>, body: Value,
                          segments: seq<Value>, context: seq<(string, Value)>, p: Procedure)
    requires ValidRoute(segments) && segments != []
    requires Walk(AtNode(router), Texts(segments)) == AtNode(Endpoint(p))
    requires GetInput(c, verb, url, body).Read?
    ensures var input := GetInput(c, verb, url, body).parsed.input;
      var run := InvokeSpec(p.state, input, Obj(context), CallOptions(verb));
      DispatchSpec(router, c, verb, url, body, segments, context)
        == (match run.settled
            case Resolved(v) => if verb == Options then Responded(Undefined, Some(200)) else Responded(v, None)
            case Rejected(t) => ErrorResponse(t))
  {
    TargetIsWalk(router, segments);
    ContextUnchanged(c, verb, url, body, context);
  }

  /**
   * Only a route that reaches nothing is a 404 NOT_FOUND; a route that stops at a sub-router (or
   * at a procedure's `__type` tag) is a 500 SERVER_ERROR, because calling it throws.
   */
  lemma UnroutableResponses(router: Router, c: Codec, verb: HttpMethod, url: Option<string>, body: Value,
                            segments: seq<Value>, context: seq<(string, Value)>)
    requires ValidRoute(segments) && segments != []
    requires GetInput(c, verb, url, body).Read?
    ensures var f := Walk(AtNode(router), Texts(segments));
      && (f.Nothing? ==> DispatchSpec(router, c, verb, url, body, segments, context) == NotFound)
      && (f.AtText? || (f.AtNode? && f.node.Routes?) ==>
            DispatchSpec(router, c, verb, url, body, segments, context) == ServerError)
  {
    TargetIsWalk(router, segments);
    WalkTextIsKindName(router, Texts(segments));
    var parsed := GetInput(c, verb, url, body).parsed;
    assert DispatchSpec(router, c, verb, url, body, segments, context)
        == Call(Walk(AtNode(router), Texts(segments)), verb, parsed.input, Assigned(context, parsed.ctx));
  }

  /** The only text a walk can reach is the `__type` tag of a procedure. */
  lemma WalkTextIsKindName(router: Router, path: seq<string>)
    requires path != []
    ensures Walk(AtNode(router), path).AtText? ==> Walk(AtNode(router), path).s in {"query", "mutate"}
  {
    var f := Walk(AtNode(router), path);
    var n := |path| - 1;
    assert path == path[..n] + [path[n]];
    WalkAppend(AtNode(router), path[..n], [path[n]]);
    assert f == Child(Walk(AtNode(router), path[..n]), path[n]);
  }

  /** An empty route looks up the key "undefined" at the root of the router. */
  lemma EmptyRoute(router: Router, c: Codec, verb: HttpMethod, url: Option<string>, body: Value,
                   context: seq<(string, Value)>)
    requires router.Routes? && "undefined" !in router.children
    requires GetInput(c, verb, url, body).Read?
    ensures DispatchSpec(router, c, verb, url, body, [], context) == NotFound
  {
  }

  /**
   * A request is rejected, rather than answered, exactly when its route is well formed and
   * reading its input fails: an unknown verb, or a GET or POST whose query input does not decode
   * or parse.
   */
  lemma RejectsExactly(router: Router, c: Codec, verb: HttpMethod, url: Option<string>, body: Value,
                       segments: seq<Value>, context: seq<(string, Value)>)
    ensures DispatchSpec(router, c, verb, url, body, segments, context).Rejects?
        <==> ValidRoute(segments) && (verb.OtherMethod? || ((verb == Get || verb == Post) && InputFromUrl(c, url).None?))
  {
  }

  /** A failure thrown by the procedure is a response with a non-zero status that names the error. */
  lemma FailureResponses(verb: HttpMethod, t: Thrown)
    ensures var h := Reply(verb, Rejected(t));
      && h.Responded? && h.status.Some?
      && (t.ThrownRpc? ==>
            Prop(h.data, "error") == Str(t.err.error) && Prop(h.data, "message") == Str(t.err.message)
            && (t.err.status.None? ==> h.status == Some(500)))
      && (!t.ThrownRpc? ==> h.status == Some(500) && Prop(h.data, "error") == Str("SERVER_ERROR"))
  {
    if t.ThrownRpc? {
      var entries := [("error", Str(t.err.error)), ("message", Str(t.err.message))];
      assert entries[0].0 != "message";
      assert Lookup(entries, "message") == Lookup(entries[1..], "message");
    }
  }
}
