/**
 * The procedure builder and the procedure executor.
 *
 * A builder holds a copy-on-write state: an insertion-ordered set of schema steps, another of
 * middleware steps, the procedure type and the main handler.  Every builder operation returns a
 * new state and leaves its receiver as it was; these are values here, so the receiver is unchanged
 * by construction.  Steps are objects, so that "the same step" means reference identity, as it
 * does for the members of a JavaScript `Set`.
 *
 * The executor first runs every schema, in set order, then drives the middleware chain through a
 * continuation `next` that shares one counter: each call of `next` consumes the next unused
 * middleware, or the main handler once they are used up.
 */
module Procedures {
  import opened Wrappers
  import opened Errors
  import opened Values
  import opened Primitives

  // ---------------------------------------------------------------------------------------------
  // Steps
  // ---------------------------------------------------------------------------------------------

  /** The procedure type, `__type`. */
  datatype Kind = Query | Mutate

  /** The tag `"query"` or `"mutate"` that both ends use for a kind. */
  function KindName(k: Kind): string {
    match k
    case Query => "query"
    case Mutate => "mutate"
  }

  /** How a user function ends: it returns a value, returns an RPCError, or throws. */
  datatype Completion = Returns(v: Value) | ReturnsError(err: RpcError) | Throws(t: Thrown)

  /**
   * A schema: a function, whose return value replaces the input, or a Zod schema, which only
   * validates (its `parse` throws a ZodError with the given message when it rejects the input).
   */
  datatype Schema =
    | FunctionSchema(apply: Value -> Completion)
    | ZodSchema(accepts: Value -> bool, issue: Value -> string)

  class SchemaStep {
    const schema: Schema

    constructor (schema: Schema)
      ensures this.schema == schema
    {
      this.schema := schema;
    }
  }

  /** What `next` resolves to: the `MiddlewareResult` of the rest of the chain. */
  datatype MwResult = MwResult(data: Value, input: Value, context: Value)

  /** One call `next(input, context)` made by a middleware. */
  datatype NextCall = NextCall(input: Value, context: Value)

  /**
   * How a middleware ends once its calls of `next` have returned: it returns the last
   * `MiddlewareResult` unchanged (`undefined` if it made no call), or it computes its own
   * completion from that last result.
   */
  datatype Finish = Forward | Give(reply: Option<MwResult> -> Completion)

  /** What a middleware does when invoked with `(input, context, next)`. */
  datatype Plan = Plan(calls: seq<NextCall>, finish: Finish)

  class MiddlewareStep {
    const plan: (Value, Value) -> Plan

    constructor (plan: (Value, Value) -> Plan)
      ensures this.plan == plan
    {
      this.plan := plan;
    }
  }

  class HandlerStep {
    const run: (Value, Value) -> Completion

    constructor (run: (Value, Value) -> Completion)
      ensures this.run == run
    {
      this.run := run;
    }
  }

  /** The main handler: the initial no-op `() => {}` or a user handler. */
  datatype Main = Noop | Handler(h: HandlerStep)

  // ---------------------------------------------------------------------------------------------
  // Insertion-ordered sets
  // ---------------------------------------------------------------------------------------------

  predicate NoDup<T(==)>(s: seq<T>) {
    forall i, j :: 0 <= i < j < |s| ==> s[i] != s[j]
  }

  function Elems<T>(s: seq<T>): set<T> {
    set x | x in s
  }

  /** `set.add(x)`. */
  function Add<T(==)>(s: seq<T>, x: T): (r: seq<T>)
    requires NoDup(s)
    ensures NoDup(r) && Elems(r) == Elems(s) + {x}
    ensures |s| <= |r| <= |s| + 1 && r[..|s|] == s
  {
    if x in s then s else s + [x]
  }

  /** `t.forEach(x => s.add(x))`. */
  function AddAll<T(==)>(s: seq<T>, t: seq<T>): (r: seq<T>)
    requires NoDup(s)
    ensures NoDup(r)
    decreases |t|
  {
    if t == [] then s
    else AddAll(Add(s, t[0]), t[1..])
  }

  /** The elements of `t` that are not in `s`, in the order of `t`. */
  function Missing<T(==)>(t: seq<T>, s: seq<T>): seq<T> {
    if t == [] then [] else (if t[0] in s then [] else [t[0]]) + Missing(t[1..], s)
  }

  /** The missing elements are exactly those of `t` outside `s`. */
  lemma {:induction false} MissingElems<T>(t: seq<T>, s: seq<T>)
    ensures Elems(Missing(t, s)) == Elems(t) - Elems(s)
  {
    if t != [] {
      MissingElems(t[1..], s);
      assert Elems(t) == {t[0]} + Elems(t[1..]);
      assert Elems(Missing(t, s)) == Elems(if t[0] in s then [] else [t[0]]) + Elems(Missing(t[1..], s));
    }
  }

  lemma {:induction false} MissingIgnores<T>(t: seq<T>, s: seq<T>, x: T)
    requires x !in t
    ensures Missing(t, s + [x]) == Missing(t, s)
  {
    if t != [] {
      assert t[0] in s + [x] <==> t[0] in s;
      MissingIgnores(t[1..], s, x);
    }
  }

  /**
   * Merging a set into another appends exactly the elements that were not yet present, in their
   * own order, after the receiver's elements.
   */
  lemma {:induction false} AddAllAppendsMissing<T>(s: seq<T>, t: seq<T>)
    requires NoDup(s) && NoDup(t)
    ensures AddAll(s, t) == s + Missing(t, s)
    decreases |t|
  {
    if t != [] {
      var x, rest := t[0], t[1..];
      TailOfSet(t);
      if x in s {
        calc {
          AddAll(s, t);
          AddAll(Add(s, x), rest);
          { assert Add(s, x) == s; }
          AddAll(s, rest);
          { AddAllAppendsMissing(s, rest); }
          s + Missing(rest, s);
          { assert Missing(t, s) == Missing(rest, s); }
          s + Missing(t, s);
        }
      } else {
        calc {
          AddAll(s, t);
          AddAll(Add(s, x), rest);
          { assert Add(s, x) == s + [x]; }
          AddAll(s + [x], rest);
          { AddAllAppendsMissing(s + [x], rest); }
          s + [x] + Missing(rest, s + [x]);
          { MissingIgnores(rest, s, x); }
          s + [x] + Missing(rest, s);
          { assert Missing(t, s) == [x] + Missing(rest, s); }
          s + Missing(t, s);
        }
      }
    }
  }

  lemma TailOfSet<T>(t: seq<T>)
    requires NoDup(t) && t != []
    ensures NoDup(t[1..]) && t[0] !in t[1..]
  {
    forall i, j | 0 <= i < j < |t[1..]| ensures t[1..][i] != t[1..][j] {
      assert t[1..][i] == t[i + 1] && t[1..][j] == t[j + 1];
    }
    forall i | 0 <= i < |t[1..]| ensures t[1..][i] != t[0] {
      assert t[1..][i] == t[i + 1];
    }
  }

  /** Merging keeps the receiver's elements first and ends up with the elements of both sets. */
  lemma Merged<T>(s: seq<T>, t: seq<T>)
    requires NoDup(s) && NoDup(t)
    ensures AddAll(s, t) == s + Missing(t, s)
    ensures Elems(AddAll(s, t)) == Elems(s) + Elems(t)
  {
    AddAllAppendsMissing(s, t);
    MissingElems(t, s);
    ElemsConcat(s, Missing(t, s));
  }

  lemma ElemsConcat<T>(a: seq<T>, b: seq<T>)
    ensures Elems(a + b) == Elems(a) + Elems(b)
  {
    assert forall x :: x in a + b <==> x in a || x in b;
  }

  // ---------------------------------------------------------------------------------------------
  // Builder
  // ---------------------------------------------------------------------------------------------

  /** `ProcedureState`: the type, the main handler, the two step sets and the (unused) error code. */
  datatype ProcedureState = ProcedureState(
    kind: Kind,
    main: Main,
    schemas: seq<SchemaStep>,
    middlewares: seq<MiddlewareStep>,
    error: string)

  /** A builder; its `state()` is the state it closes over. */
  datatype Builder = Builder(state: ProcedureState) {
    predicate Valid() {
      NoDup(state.schemas) && NoDup(state.middlewares)
    }
  }

  /** A built procedure; `__type` is its state's type. */
  datatype Procedure = Procedure(state: ProcedureState) {
    function Type(): Kind {
      state.kind
    }
  }

  /** `createProcedure()`. */
  function CreateProcedure(): (b: Builder)
    ensures b.Valid()
    ensures b.state.kind == Query && b.state.main == Noop
    ensures b.state.schemas == [] && b.state.middlewares == [] && b.state.error == ""
  {
    Builder(ProcedureState(Query, Noop, [], [], ""))
  }

  /** `builder.schema(f)`: `f` joins the schema set at its end unless it is already there. */
  function AddSchema(b: Builder, f: SchemaStep): (r: Builder)
    requires b.Valid()
    ensures r.Valid()
    ensures Elems(r.state.schemas) == Elems(b.state.schemas) + {f}
    ensures |b.state.schemas| <= |r.state.schemas| <= |b.state.schemas| + 1
    ensures r.state.schemas[..|b.state.schemas|] == b.state.schemas
    ensures r.state.middlewares == b.state.middlewares
    ensures r.state.kind == b.state.kind && r.state.main == b.state.main && r.state.error == b.state.error
  {
    Builder(b.state.(schemas := Add(b.state.schemas, f)))
  }

  /** `builder.middleware(f)`: `f` joins the middleware set at its end unless it is already there. */
  function AddMiddleware(b: Builder, f: MiddlewareStep): (r: Builder)
    requires b.Valid()
    ensures r.Valid()
    ensures Elems(r.state.middlewares) == Elems(b.state.middlewares) + {f}
    ensures |b.state.middlewares| <= |r.state.middlewares| <= |b.state.middlewares| + 1
    ensures r.state.middlewares[..|b.state.middlewares|] == b.state.middlewares
    ensures r.state.schemas == b.state.schemas
    ensures r.state.kind == b.state.kind && r.state.main == b.state.main && r.state.error == b.state.error
  {
    Builder(b.state.(middlewares := Add(b.state.middlewares, f)))
  }

  /**
   * `builder.use(other)`: the other builder's schemas, then its middlewares, are added in their
   * order, skipping those already present; the receiver's type and main handler are kept.
   */
  function Use(b: Builder, other: Builder): (r: Builder)
    requires b.Valid() && other.Valid()
    ensures r.Valid()
    ensures r.state.schemas == b.state.schemas + Missing(other.state.schemas, b.state.schemas)
    ensures r.state.middlewares == b.state.middlewares + Missing(other.state.middlewares, b.state.middlewares)
    ensures Elems(r.state.middlewares) == Elems(b.state.middlewares) + Elems(other.state.middlewares)
    ensures Elems(r.state.schemas) == Elems(b.state.schemas) + Elems(other.state.schemas)
    ensures r.state.kind == b.state.kind && r.state.main == b.state.main && r.state.error == b.state.error
  {
    Merged(b.state.schemas, other.state.schemas);
    Merged(b.state.middlewares, other.state.middlewares);
    Builder(b.state.(
      schemas := AddAll(b.state.schemas, other.state.schemas),
      middlewares := AddAll(b.state.middlewares, other.state.middlewares)))
  }

  /** `builder.query(f)`: a procedure of type "query" whose main handler is `f`. */
  function MakeQuery(b: Builder, f: HandlerStep): (p: Procedure)
    ensures p.Type() == Query && p.state.main == Handler(f)
    ensures p.state.schemas == b.state.schemas && p.state.middlewares == b.state.middlewares
    ensures p.state.error == b.state.error
  {
    Procedure(b.state.(kind := Query, main := Handler(f)))
  }

  /** `builder.mutate(f)`: a procedure of type "mutate" whose main handler is `f`. */
  function MakeMutate(b: Builder, f: HandlerStep): (p: Procedure)
    ensures p.Type() == Mutate && p.state.main == Handler(f)
    ensures p.state.schemas == b.state.schemas && p.state.middlewares == b.state.middlewares
    ensures p.state.error == b.state.error
  {
    Procedure(b.state.(kind := Mutate, main := Handler(f)))
  }

  /**
   * A builder shared by two branches that are merged again contributes each of its middlewares
   * once: the merged set holds every one of them, and holds each step at most once.
   */
  lemma SharedBuilderOnce(a1: Builder, a2: Builder, shared: Builder)
    requires a1.Valid() && a2.Valid() && shared.Valid()
    ensures var merged := Use(Use(a1, shared), Use(a2, shared));
      && NoDup(merged.state.middlewares)
      && Elems(shared.state.middlewares) <= Elems(merged.state.middlewares)
      && Elems(shared.state.schemas) <= Elems(merged.state.schemas)
  {
  }

  /** Using a builder twice, or using a builder in itself, changes nothing the second time. */
  lemma {:induction false} UseIdempotent(b: Builder, other: Builder)
    requires b.Valid() && other.Valid()
    ensures Use(Use(b, other), other) == Use(b, other)
  {
    var once := Use(b, other);
    MissingAllPresent(other.state.schemas, once.state.schemas);
    MissingAllPresent(other.state.middlewares, once.state.middlewares);
  }

  lemma {:induction false} MissingAllPresent<T>(t: seq<T>, s: seq<T>)
    requires Elems(t) <= Elems(s)
    ensures Missing(t, s) == []
  {
    if t != [] {
      assert t[0] in Elems(t);
      assert Elems(t[1..]) <= Elems(t);
      MissingAllPresent(t[1..], s);
    }
  }

  // ---------------------------------------------------------------------------------------------
  // Execution: specification
  // ---------------------------------------------------------------------------------------------

  /** A step of an execution, in the order in which they start. */
  datatype Event =
    | RanSchema(schema: nat)
    | RanMiddleware(middleware: nat)
    | RanMain(input: Value, context: Value)

  /** The executor's options `{ onlyMiddleware, throwOnError }` (both default to false). */
  datatype InternalOptions = InternalOptions(onlyMiddleware: bool, throwOnError: bool)

  /** How a procedure call settles. */
  datatype Settled = Resolved(v: Value) | Rejected(t: Thrown)

  /** The RPCError a throwing or rejecting schema is turned into. */
  function SchemaFailure(t: Thrown): (e: RpcError)
    ensures e.error == "SERVER_ERROR" && e.status == Some(500)
    ensures e.message == UnknownErrorMessage(t)
  {
    NewRpcError<Value>(RpcErrorOptions("SERVER_ERROR", Some(500), Some(UnknownErrorMessage(t)), None))
  }

  datatype SchemaPhase = Validated(input: Value) | Invalid(t: Thrown)

  /**
   * One schema applied to the input: a function schema's result replaces the input, a Zod schema
   * leaves it as it is; a throw becomes a SERVER_ERROR RPCError with status 500, and an RPCError
   * that a function schema returns is thrown as it is.
   */
  function ApplySchema(s: Schema, input: Value): (p: SchemaPhase)
    ensures s.ZodSchema? && p.Validated? ==> p.input == input
    ensures p.Invalid? ==> p.t.ThrownRpc?
    ensures s.ZodSchema? && !s.accepts(input) ==> p.Invalid? && p.t.err.error == "SERVER_ERROR"
    ensures s.FunctionSchema? && s.apply(input).Throws? ==> p == Invalid(ThrownRpc(SchemaFailure(s.apply(input).t)))
    ensures s.FunctionSchema? && s.apply(input).ReturnsError? ==> p == Invalid(ThrownRpc(s.apply(input).err))
  {
    match s
    case FunctionSchema(apply) =>
      (match apply(input)
       case Returns(v) => Validated(v)
       case ReturnsError(e) => Invalid(ThrownRpc(e))
       case Throws(t) => Invalid(ThrownRpc(SchemaFailure(t))))
    case ZodSchema(accepts, issue) =>
      if accepts(input) then Validated(input) else Invalid(ThrownRpc(SchemaFailure(ThrownError(issue(input)))))
  }

  datatype SchemaRun = SchemaRun(phase: SchemaPhase, trace: seq<Event>)

  /** The schema loop from position `from` on: each schema sees the input the previous one left. */
  function RunSchemas(schemas: seq<SchemaStep>, input: Value, from: nat): SchemaRun
    requires from <= |schemas|
    decreases |schemas| - from
  {
    if from == |schemas| then SchemaRun(Validated(input), [])
    else
      match ApplySchema(schemas[from].schema, input)
      case Invalid(t) => SchemaRun(Invalid(t), [RanSchema(from)])
      case Validated(v) =>
        var rest := RunSchemas(schemas, v, from + 1);
        SchemaRun(rest.phase, [RanSchema(from)] + rest.trace)
  }

  /** The schema events `from, from + 1, ..., to - 1`. */
  function SchemaEvents(from: nat, to: nat): (r: seq<Event>)
    requires from <= to
    ensures |r| == to - from && (forall k :: 0 <= k < |r| ==> r[k] == RanSchema(from + k))
  {
    seq(to - from, k requires 0 <= k => RanSchema(from + k))
  }

  /**
   * Schemas run in set order, each at most once: all of them when they all pass; when one fails,
   * that one is the last to run.
   */
  lemma {:induction false} SchemasRunInOrder(schemas: seq<SchemaStep>, input: Value, from: nat)
    requires from <= |schemas|
    ensures var r := RunSchemas(schemas, input, from);
      && (r.phase.Validated? ==> r.trace == SchemaEvents(from, |schemas|))
      && (r.phase.Invalid? ==> exists k :: from < k <= |schemas| && r.trace == SchemaEvents(from, k))
    decreases |schemas| - from
  {
    if from < |schemas| {
      match ApplySchema(schemas[from].schema, input)
      case Invalid(t) =>
        assert RunSchemas(schemas, input, from).trace == SchemaEvents(from, from + 1);
      case Validated(v) =>
        SchemasRunInOrder(schemas, v, from + 1);
        var rest := RunSchemas(schemas, v, from + 1);
        if rest.phase.Invalid? {
          var k :| from + 1 < k <= |schemas| && rest.trace == SchemaEvents(from + 1, k);
          assert RunSchemas(schemas, input, from).trace == SchemaEvents(from, k);
        }
    }
  }

  /** How a middleware or the main handler's completion becomes the outcome of the `next` that ran it. */
  datatype Outcome = Passed(result: MwResult) | Raised(t: Thrown)

  /**
   * `if (result instanceof RPCError) throw result; if (result instanceof MiddlewareResult) return
   * result; return new MiddlewareResult({data: result, input, context})`, where `input` and
   * `context` are the arguments of this `next` call.
   */
  function Wrap(c: Completion, input: Value, context: Value): (o: Outcome)
    ensures c.Returns? ==> o == Passed(MwResult(c.v, input, context))
    ensures c.ReturnsError? ==> o == Raised(ThrownRpc(c.err))
    ensures c.Throws? ==> o == Raised(c.t)
  {
    match c
    case Returns(v) => Passed(MwResult(v, input, context))
    case ReturnsError(e) => Raised(ThrownRpc(e))
    case Throws(t) => Raised(t)
  }

  /** The outcome of a middleware once its `next` calls all returned, the last with `last`. */
  function FinishPlan(f: Finish, last: Option<MwResult>, input: Value, context: Value): Outcome {
    match f
    case Forward => if last.Some? then Passed(last.value) else Passed(MwResult(Undefined, input, context))
    case Give(reply) => Wrap(reply(last), input, context)
  }

  function CallMain(main: Main, input: Value, context: Value): Completion {
    match main
    case Noop => Returns(Undefined)
    case Handler(h) => h.run(input, context)
  }

  function MainEvents(main: Main, input: Value, context: Value): seq<Event> {
    if main.Handler? then [RanMain(input, context)] else []
  }

  /** What one call of `next` does: its outcome, the counter afterwards and the steps it ran. */
  datatype ChainRun = ChainRun(outcome: Outcome, counter: nat, trace: seq<Event>)

  /** What a middleware's sequence of `next` calls does, from call `j` on. */
  datatype CallsRun = CallsRun(raised: Option<Thrown>, last: Option<MwResult>, counter: nat, trace: seq<Event>)

  /**
   * `next(input, context)` with the shared counter at `i`: it takes `middlewares[i]` (the counter
   * moves on either way) and runs it, or runs the main handler when `i` is past the last one.
   */
  function NextSpec(mws: seq<MiddlewareStep>, main: Main, i: nat, input: Value, context: Value): (r: ChainRun)
    ensures r.counter > i
    decreases |mws| - i, 1
  {
    if i < |mws| then
      var plan := mws[i].plan(input, context);
      var calls := CallsSpec(mws, main, i, plan.calls, 0, i + 1, None);
      var outcome := if calls.raised.Some? then Raised(calls.raised.value)
                     else FinishPlan(plan.finish, calls.last, input, context);
      ChainRun(outcome, calls.counter, [RanMiddleware(i)] + calls.trace)
    else
      ChainRun(Wrap(CallMain(main, input, context), input, context), i + 1, MainEvents(main, input, context))
  }

  /** The `next` calls `calls[j..]` of middleware `owner`, in order, until one of them throws. */
  function CallsSpec(mws: seq<MiddlewareStep>, main: Main, owner: nat, calls: seq<NextCall>, j: nat,
                     counter: nat, last: Option<MwResult>): (r: CallsRun)
    requires owner < |mws| && owner < counter && j <= |calls|
    ensures r.counter >= counter
    decreases |mws| - owner, 0, |calls| - j
  {
    if j == |calls| then CallsRun(None, last, counter, [])
    else
      var step := NextSpec(mws, main, counter, calls[j].input, calls[j].context);
      match step.outcome
      case Raised(t) => CallsRun(Some(t), last, step.counter, step.trace)
      case Passed(result) =>
        var rest := CallsSpec(mws, main, owner, calls, j + 1, step.counter, Some(result));
        CallsRun(rest.raised, rest.last, rest.counter, step.trace + rest.trace)
  }

  /** The main handler the executor uses: a no-op in middleware-only mode. */
  function MainFor(st: ProcedureState, options: InternalOptions): Main {
    if options.onlyMiddleware then Noop else st.main
  }

  /** `context = {}` when the caller passed none. */
  function DefaultContext(context: Value): Value {
    if context.Undefined? then Obj([]) else context
  }

  /**
   * The catch block: rethrow in throwing mode; otherwise an RPCError becomes `{error: code}` and
   * anything else `{error: "SERVER_ERROR"}`.
   */
  function Failure(t: Thrown, options: InternalOptions): (s: Settled)
    ensures options.throwOnError ==> s == Rejected(t)
    ensures !options.throwOnError ==> s.Resolved? && IsError(s.v)
    ensures !options.throwOnError && t.ThrownRpc? ==> s.v == ErrorObject(Str(t.err.error))
    ensures !options.throwOnError && !t.ThrownRpc? ==> s.v == ErrorObject(Str("SERVER_ERROR"))
  {
    if options.throwOnError then Rejected(t)
    else if t.ThrownRpc? then Resolved(ErrorObject(Str(t.err.error)))
    else Resolved(ErrorObject(Str("SERVER_ERROR")))
  }

  datatype Invocation = Invocation(settled: Settled, trace: seq<Event>)

  /** A call `procedure(input, context, options)`: schemas first, then the chain from counter 0. */
  function InvokeSpec(st: ProcedureState, input: Value, context: Value, options: InternalOptions): Invocation {
    var ctx := DefaultContext(context);
    var schemas := if options.onlyMiddleware then SchemaRun(Validated(input), [])
                   else RunSchemas(st.schemas, input, 0);
    match schemas.phase
    case Invalid(t) => Invocation(Failure(t, options), schemas.trace)
    case Validated(v) =>
      var chain := NextSpec(st.middlewares, MainFor(st, options), 0, v, ctx);
      var settled := if chain.outcome.Passed? then Resolved(chain.outcome.result.data)
                     else Failure(chain.outcome.t, options);
      Invocation(settled, schemas.trace + chain.trace)
  }

  // ---------------------------------------------------------------------------------------------
  // Execution: properties
  // ---------------------------------------------------------------------------------------------

  /**
   * A chain trace in which middlewares run in strictly increasing position, all within
   * `[lo, hi)`, no schema runs, and the main handler runs only if there is one.
   */
  ghost predicate ChainOrdered(tr: seq<Event>, lo: nat, hi: nat, main: Main) {
    && (forall x :: 0 <= x < |tr| ==> !tr[x].RanSchema?)
    && (forall x :: 0 <= x < |tr| && tr[x].RanMiddleware? ==> lo <= tr[x].middleware < hi)
    && (forall x, y :: 0 <= x < y < |tr| && tr[x].RanMiddleware? && tr[y].RanMiddleware? ==>
          tr[x].middleware < tr[y].middleware)
    && (main.Noop? ==> forall x :: 0 <= x < |tr| ==> !tr[x].RanMain?)
  }

  lemma ChainOrderedJoin(a: seq<Event>, b: seq<Event>, lo: nat, mid: nat, hi: nat, main: Main)
    requires ChainOrdered(a, lo, mid, main) && ChainOrdered(b, mid, hi, main) && lo <= mid <= hi
    ensures ChainOrdered(a + b, lo, hi, main)
  {
    var ab := a + b;
    assert forall x :: |a| <= x < |ab| ==> ab[x] == b[x - |a|];
    forall x, y | 0 <= x < y < |ab| && ab[x].RanMiddleware? && ab[y].RanMiddleware?
      ensures ab[x].middleware < ab[y].middleware
    {
      if y < |a| {
        assert ab[x] == a[x] && ab[y] == a[y];
      } else if x >= |a| {
        assert ab[x] == b[x - |a|] && ab[y] == b[y - |a|];
      } else {
        assert ab[x] == a[x] && ab[y] == b[y - |a|];
      }
    }
  }

  /**
   * However often middlewares call `next`, each middleware runs at most once, in position order,
   * and only positions the shared counter has passed; no schema runs inside the chain, and with the
   * no-op main no handler runs at all.
   */
  lemma {:induction false} NextOrdered(mws: seq<MiddlewareStep>, main: Main, i: nat, input: Value, context: Value)
    ensures var r := NextSpec(mws, main, i, input, context);
      ChainOrdered(r.trace, i, r.counter, main)
    decreases |mws| - i, 1
  {
    var r := NextSpec(mws, main, i, input, context);
    if i < |mws| {
      var plan := mws[i].plan(input, context);
      CallsOrdered(mws, main, i, plan.calls, 0, i + 1, None);
      var calls := CallsSpec(mws, main, i, plan.calls, 0, i + 1, None);
      assert ChainOrdered([RanMiddleware(i)], i, i + 1, main);
      ChainOrderedJoin([RanMiddleware(i)], calls.trace, i, i + 1, calls.counter, main);
    }
  }

  lemma {:induction false} CallsOrdered(mws: seq<MiddlewareStep>, main: Main, owner: nat, calls: seq<NextCall>,
                                        j: nat, counter: nat, last: Option<MwResult>)
    requires owner < |mws| && owner < counter && j <= |calls|
    ensures var r := CallsSpec(mws, main, owner, calls, j, counter, last);
      ChainOrdered(r.trace, counter, r.counter, main)
    decreases |mws| - owner, 0, |calls| - j
  {
    if j < |calls| {
      NextOrdered(mws, main, counter, calls[j].input, calls[j].context);
      var step := NextSpec(mws, main, counter, calls[j].input, calls[j].context);
      if step.outcome.Passed? {
        CallsOrdered(mws, main, owner, calls, j + 1, step.counter, Some(step.outcome.result));
        var rest := CallsSpec(mws, main, owner, calls, j + 1, step.counter, Some(step.outcome.result));
        ChainOrderedJoin(step.trace, rest.trace, counter, step.counter, rest.counter, main);
      }
    }
  }

  /**
   * All schemas run before any middleware: in a procedure's trace no schema event follows a
   * middleware or main event; in middleware-only mode no schema and no handler runs.
   */
  lemma SchemasBeforeChain(st: ProcedureState, input: Value, context: Value, options: InternalOptions)
    ensures var tr := InvokeSpec(st, input, context, options).trace;
      forall x, y :: 0 <= x < y < |tr| && !tr[x].RanSchema? ==> !tr[y].RanSchema?
    ensures options.onlyMiddleware ==>
      var tr := InvokeSpec(st, input, context, options).trace;
      forall x :: 0 <= x < |tr| ==> !tr[x].RanSchema? && !tr[x].RanMain?
  {
    var ctx := DefaultContext(context);
    var schemas := if options.onlyMiddleware then SchemaRun(Validated(input), [])
                   else RunSchemas(st.schemas, input, 0);
    if !options.onlyMiddleware {
      SchemasRunInOrder(st.schemas, input, 0);
      if schemas.phase.Invalid? {
        var k :| 0 < k <= |st.schemas| && schemas.trace == SchemaEvents(0, k);
      }
    }
    assert forall x :: 0 <= x < |schemas.trace| ==> schemas.trace[x].RanSchema?;
    if schemas.phase.Validated? {
      NextOrdered(st.middlewares, MainFor(st, options), 0, schemas.phase.input, ctx);
    }
  }

  /** A middleware that, whatever it is given, calls `next` once and returns what `next` returned. */
  ghost predicate Relays(m: MiddlewareStep) {
    forall input, context :: |m.plan(input, context).calls| == 1 && m.plan(input, context).finish.Forward?
  }

  /** The arguments the main handler receives after relaying middlewares `k..` pass theirs on. */
  function Threaded(mws: seq<MiddlewareStep>, k: nat, input: Value, context: Value): NextCall
    requires forall n :: 0 <= n < |mws| ==> Relays(mws[n])
    requires k <= |mws|
    decreases |mws| - k
  {
    if k == |mws| then NextCall(input, context)
    else
      assert Relays(mws[k]);
      var call := mws[k].plan(input, context).calls[0];
      Threaded(mws, k + 1, call.input, call.context)
  }

  /** The middleware events `from, ..., to - 1`. */
  function MiddlewareEvents(from: nat, to: nat): (r: seq<Event>)
    requires from <= to
    ensures |r| == to - from && (forall k :: 0 <= k < |r| ==> r[k] == RanMiddleware(from + k))
  {
    seq(to - from, k requires 0 <= k => RanMiddleware(from + k))
  }

  /**
   * A chain of relaying middlewares runs each middleware once, in order, then the handler, on the
   * input and context that the last middleware passed to `next` (which replace, not extend, the
   * ones it received); the procedure's data is what the handler returned.
   */
  lemma {:induction false} RelayChain(mws: seq<MiddlewareStep>, h: HandlerStep, k: nat, input: Value, context: Value)
    requires forall n :: 0 <= n < |mws| ==> Relays(mws[n])
    requires k <= |mws|
    ensures var r := NextSpec(mws, Handler(h), k, input, context);
      var last := Threaded(mws, k, input, context);
      && r.trace == MiddlewareEvents(k, |mws|) + [RanMain(last.input, last.context)]
      && r.outcome == Wrap(h.run(last.input, last.context), last.input, last.context)
      && r.counter == |mws| + 1
    decreases |mws| - k
  {
    if k < |mws| {
      var plan := mws[k].plan(input, context);
      assert |plan.calls| == 1 && plan.finish.Forward?;
      var call := plan.calls[0];
      RelayChain(mws, h, k + 1, call.input, call.context);
      var step := NextSpec(mws, Handler(h), k + 1, call.input, call.context);
      var calls := CallsSpec(mws, Handler(h), k, plan.calls, 0, k + 1, None);
      if step.outcome.Passed? {
        assert CallsSpec(mws, Handler(h), k, plan.calls, 1, step.counter, Some(step.outcome.result)).trace == [];
      }
      assert calls.trace == step.trace;
    }
  }

  /**
   * The handler receives the context the middleware passed to `next`, not a merge with the
   * original: a middleware passing `{auth: true}` hides every key of the original context.
   */
  lemma ContextReplaced(m: MiddlewareStep, h: HandlerStep, input: Value, original: Value)
    requires forall i, c :: m.plan(i, c) == Plan([NextCall(i, Obj([("auth", Bool(true))]))], Forward)
    ensures NextSpec([m], Handler(h), 0, input, original).trace
         == [RanMiddleware(0), RanMain(input, Obj([("auth", Bool(true))]))]
  {
    RelayChain([m], h, 0, input, original);
    assert Threaded([m], 1, input, Obj([("auth", Bool(true))])) == NextCall(input, Obj([("auth", Bool(true))]));
  }

  /**
   * A middleware at position `k`, reached through relaying middlewares, that returns an RPCError
   * without calling `next` aborts the chain: the error is raised, the counter stops just past it,
   * and no later middleware and no handler runs.
   */
  lemma {:induction false} ShortCircuitAt(mws: seq<MiddlewareStep>, main: Main, j: nat, k: nat,
                                          input: Value, context: Value, e: RpcError)
    requires j <= k < |mws|
    requires forall n :: j <= n < k ==> Relays(mws[n])
    requires forall i, c :: mws[k].plan(i, c) == Plan([], Give(last => ReturnsError(e)))
    ensures var r := NextSpec(mws, main, j, input, context);
      r.outcome == Raised(ThrownRpc(e)) && r.counter == k + 1 && r.trace == MiddlewareEvents(j, k + 1)
    decreases k - j
  {
    var plan := mws[j].plan(input, context);
    if j == k {
      assert CallsSpec(mws, main, j, plan.calls, 0, j + 1, None) == CallsRun(None, None, j + 1, []);
    } else {
      assert |plan.calls| == 1 && plan.finish.Forward?;
      var call := plan.calls[0];
      ShortCircuitAt(mws, main, j + 1, k, call.input, call.context, e);
      var step := NextSpec(mws, main, j + 1, call.input, call.context);
      assert CallsSpec(mws, main, j, plan.calls, 0, j + 1, None) == CallsRun(Some(ThrownRpc(e)), None, k + 1, step.trace);
      assert [RanMiddleware(j)] + MiddlewareEvents(j + 1, k + 1) == MiddlewareEvents(j, k + 1);
    }
  }

  /**
   * A procedure whose middleware `k`, reached through relaying middlewares, returns an RPCError
   * without calling `next` settles with that error (as `{error: code}` unless it throws): after
   * the schemas, exactly middlewares `0..k` run, and the handler never does.
   */
  lemma MiddlewareShortCircuit(st: ProcedureState, input: Value, context: Value,
                               options: InternalOptions, e: RpcError, k: nat)
    requires k < |st.middlewares|
    requires forall n :: 0 <= n < k ==> Relays(st.middlewares[n])
    requires forall i, c :: st.middlewares[k].plan(i, c) == Plan([], Give(last => ReturnsError(e)))
    requires options.onlyMiddleware || RunSchemas(st.schemas, input, 0).phase.Validated?
    ensures var schemas := if options.onlyMiddleware then [] else RunSchemas(st.schemas, input, 0).trace;
      InvokeSpec(st, input, context, options).trace == schemas + MiddlewareEvents(0, k + 1)
    ensures InvokeSpec(st, input, context, options).settled == Failure(ThrownRpc(e), options)
    ensures forall x :: 0 <= x < |InvokeSpec(st, input, context, options).trace| ==>
      !InvokeSpec(st, input, context, options).trace[x].RanMain?
  {
    var schemas := if options.onlyMiddleware then SchemaRun(Validated(input), []) else RunSchemas(st.schemas, input, 0);
    if !options.onlyMiddleware {
      SchemasRunInOrder(st.schemas, input, 0);
    }
    ShortCircuitAt(st.middlewares, MainFor(st, options), 0, k, schemas.phase.input, DefaultContext(context), e);
  }

  /**
   * A procedure whose handler returns an RPCError resolves to `{error: code}`, and a procedure whose
   * Zod schema rejects its input resolves to `{error: "SERVER_ERROR"}` without running the handler.
   */
  lemma ErrorValues(h: HandlerStep, z: SchemaStep, input: Value, e: RpcError)
    requires forall i, c :: h.run(i, c) == ReturnsError(e)
    requires z.schema.ZodSchema? && !z.schema.accepts(input)
    ensures InvokeSpec(MakeQuery(CreateProcedure(), h).state, input, Undefined, InternalOptions(false, false)).settled
         == Resolved(ErrorObject(Str(e.error)))
    ensures var p := MakeQuery(AddSchema(CreateProcedure(), z), h);
      var r := InvokeSpec(p.state, input, Undefined, InternalOptions(false, false));
      r.settled == Resolved(ErrorObject(Str("SERVER_ERROR"))) && r.trace == [RanSchema(0)]
  {
    var p := MakeQuery(AddSchema(CreateProcedure(), z), h);
    assert p.state.schemas == [z];
  }

  // ---------------------------------------------------------------------------------------------
  // Execution: the executor
  // ---------------------------------------------------------------------------------------------

  /** One execution of the middleware chain: the middleware list, the main handler and the shared counter. */
  class Execution {
    const middlewares: seq<MiddlewareStep>
    const main: Main
    var i: nat
    ghost var trace: seq<Event>

    constructor (middlewares: seq<MiddlewareStep>, main: Main)
      ensures this.middlewares == middlewares && this.main == main
      ensures i == 0 && trace == []
    {
      this.middlewares := middlewares;
      this.main := main;
      i := 0;
      trace := [];
    }

    /** `next(input, context)`. */
    method Next(input: Value, context: Value) returns (o: Outcome)
      modifies this
      ensures var r := NextSpec(middlewares, main, old(i), input, context);
        o == r.outcome && i == r.counter && trace == old(trace) + r.trace
      decreases |middlewares| - i, 1
    {
      var k := i;
      i := i + 1;
      if k < |middlewares| {
        var plan := middlewares[k].plan(input, context);
        trace := trace + [RanMiddleware(k)];
        var raised, last := RunCalls(k, plan.calls, 0, None);
        if raised.Some? {
          o := Raised(raised.value);
        } else {
          o := FinishPlan(plan.finish, last, input, context);
        }
      } else {
        var c := CallMain(main, input, context);
        trace := trace + MainEvents(main, input, context);
        o := Wrap(c, input, context);
      }
    }

    /** The rest of middleware `owner`'s body: its calls `calls[j..]` of `next`, until one of them throws. */
    method RunCalls(owner: nat, calls: seq<NextCall>, j: nat, last: Option<MwResult>)
      returns (raised: Option<Thrown>, final: Option<MwResult>)
      requires owner < |middlewares| && owner < i && j <= |calls|
      modifies this
      ensures var r := CallsSpec(middlewares, main, owner, calls, j, old(i), last);
        raised == r.raised && final == r.last && i == r.counter && trace == old(trace) + r.trace
      decreases |middlewares| - owner, 0, |calls| - j
    {
      if j == |calls| {
        return None, last;
      }
      var r := Next(calls[j].input, calls[j].context);
      if r.Raised? {
        return Some(r.t), last;
      }
      raised, final := RunCalls(owner, calls, j + 1, Some(r.result));
    }
  }

  /**
   * A call of a built procedure, `procedure(input, context, options)`: the schema loop, then the
   * middleware chain, then the conversion of a failure according to `throwOnError`.
   */
  method Invoke(p: Procedure, input: Value, context: Value, options: InternalOptions)
    returns (r: Settled, ghost trace: seq<Event>)
    ensures r == InvokeSpec(p.state, input, context, options).settled
    ensures trace == InvokeSpec(p.state, input, context, options).trace
  {
    var ctx := if context.Undefined? then Obj([]) else context;
    var current := input;
    var failure: Option<Thrown> := None;
    trace := [];
    if !options.onlyMiddleware {
      var schemas := p.state.schemas;
      var k := 0;
      while k < |schemas|
        invariant k <= |schemas|
        invariant var rest := RunSchemas(schemas, current, k);
          RunSchemas(schemas, input, 0) == SchemaRun(rest.phase, trace + rest.trace)
        decreases |schemas| - k
      {
        var phase := ApplySchema(schemas[k].schema, current);
        trace := trace + [RanSchema(k)];
        if phase.Invalid? {
          failure := Some(phase.t);
          break;
        }
        current := phase.input;
        k := k + 1;
      }
    }
    if failure.None? {
      var execution := new Execution(p.state.middlewares, if options.onlyMiddleware then Noop else p.state.main);
      var o := execution.Next(current, ctx);
      trace := trace + execution.trace;
      if o.Passed? {
        r := Resolved(o.result.data);
        return;
      }
      failure := Some(o.t);
    }
    r := Failure(failure.value, options);
  }
}
