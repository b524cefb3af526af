/**
 * The client's SWR integration below the React hooks: reading a call's input back out of its
 * key, the dedupe layer that lets concurrent identical GETs share one fetch, the cache layer that
 * serves GETs from the SWR cache and writes results through to it, their composition, and the
 * `cache.set` / `cache.read` helpers.  Awaits and zero-delay timers are explicit events.
 */
module Swr {
  import opened Wrappers
  import opened Values
  import opened Wire
  import opened Client

  // ---------------------------------------------------------------------------------------------
  // Reading the input back from a key
  // ---------------------------------------------------------------------------------------------

  /**
   * `getInput(key)`: `undefined` when the key has no text after its first `?`, and otherwise the
   * `input` parameter of that text, parsed; `None` when parsing throws.
   */
  function KeyInput(c: Codec, key: string): Option<Value> {
    match QueryPart(key)
    case None => Some(Undefined)
    case Some(query) => if query == "" then Some(Undefined) else ReadInputParam(c, query)
  }

  /** The query part of a key with a base and a truthy input is exactly its `input=` part. */
  lemma KeyQueryPart(c: Codec, url: Option<string>, path: string, input: Value)
    requires Lawful(c)
    requires BaseOf(url, path) != "" && '?' !in BaseOf(url, path) && Truthy(input)
    ensures QueryPart(GetKey(c, url, path, input)) == Some(InputQuery(c, input))
  {
    var e := c.encode(c.stringify(input));
    assert '?' !in e;
    assert '?' !in "input=" + e by {
      forall i | 0 <= i < |"input=" + e| ensures ("input=" + e)[i] != '?' {
        if i >= 6 {
          assert ("input=" + e)[i] == e[i - 6];
        }
      }
    }
    QueryPartOfJoin(BaseOf(url, path), InputQuery(c, input));
  }

  /**
   * The text that reaches `JSON.parse` is the input's JSON text exactly when that text has no
   * `%`: the key's value is percent-decoded twice.
   */
  lemma KeyInputText(c: Codec, url: Option<string>, path: string, input: Value)
    requires Lawful(c)
    requires BaseOf(url, path) != "" && '?' !in BaseOf(url, path) && Truthy(input)
    ensures InputText(c, InputQuery(c, input)) == Some(c.stringify(input)) <==> '%' !in c.stringify(input)
  {
    DoubleDecoding(c, c.stringify(input));
  }

  /** So a truthy input whose JSON text has no `%` is read back as `JSON.parse` reads that text. */
  lemma KeyInputRoundTrip(c: Codec, url: Option<string>, path: string, input: Value)
    requires Lawful(c)
    requires BaseOf(url, path) != "" && '?' !in BaseOf(url, path) && Truthy(input)
    requires '%' !in c.stringify(input)
    ensures KeyInput(c, GetKey(c, url, path, input)) == c.parse(c.stringify(input))
  {
    KeyQueryPart(c, url, path, input);
    ReadEncodedInput(c, c.stringify(input));
  }

  /** A falsy input is not in the key, and reads back as `undefined`. */
  lemma FalsyInputReadsUndefined(c: Codec, url: Option<string>, path: string, input: Value)
    requires '?' !in BaseOf(url, path) && !Truthy(input)
    ensures KeyInput(c, GetKey(c, url, path, input)) == Some(Undefined)
  {
  }

  /** With an empty base the key has no `?`, so even a truthy input reads back as `undefined`. */
  lemma EmptyBaseReadsUndefined(c: Codec, url: Option<string>, path: string, input: Value)
    requires Lawful(c) && BaseOf(url, path) == ""
    ensures KeyInput(c, GetKey(c, url, path, input)) == Some(Undefined)
  {
    if Truthy(input) {
      var e := c.encode(c.stringify(input));
      assert '?' !in e;
      forall i | 0 <= i < |"input=" + e| ensures ("input=" + e)[i] != '?' {
        if i >= 6 {
          assert ("input=" + e)[i] == e[i - 6];
        }
      }
      QueryPartNone(InputQuery(c, input));
    }
  }

  // ---------------------------------------------------------------------------------------------
  // The dedupe layer
  // ---------------------------------------------------------------------------------------------

  /** `options.method === "GET"`. */
  predicate IsGet(options: Value) {
    Prop(options, "method") == Str("GET")
  }

  /**
   * The dedupe layer's state: `FETCH`, from key to the operation it holds (an index into
   * `calls`); the keys of the zero-delay timers still to fire, in order; and the requests passed
   * on to the wrapped fetcher.
   */
  datatype DedupeState = DedupeState(inFlight: map<string, nat>, timers: seq<string>, calls: seq<FetchRequest>)

  const Idle := DedupeState(map[], [], [])

  /**
   * The synchronous part of a dedupe call, up to its `await`: a GET whose key is in flight joins
   * that operation, and anything else starts a new one and files it under the key.
   */
  function Begin(s: DedupeState, key: string, options: Value): DedupeState {
    if !IsGet(options) || key !in s.inFlight then
      DedupeState(s.inFlight[key := |s.calls|], s.timers, s.calls + [FetchRequest(key, options)])
    else s
  }

  /** The operation the caller awaits: `FETCH[key]` read right after the check. */
  function Awaited(s: DedupeState, key: string, options: Value): nat {
    Begin(s, key, options).inFlight[key]
  }

  /**
   * A caller's await fulfils: it schedules the timer that will delete its key.  When the await
   * rejects, the caller throws before `setTimeout`, so no timer is scheduled and nothing changes.
   */
  function Resume(s: DedupeState, key: string): DedupeState {
    s.(timers := s.timers + [key])
  }

  /** The oldest timer fires and deletes its key, whichever operation the key holds by then. */
  function Fire(s: DedupeState): DedupeState
    requires s.timers != []
  {
    DedupeState(s.inFlight - {s.timers[0]}, s.timers[1..], s.calls)
  }

  /**
   * One event of the dedupe layer: a caller arrives, a caller's await fulfils (`Finish`) or
   * rejects (`Reject`), or the oldest timer fires.
   */
  datatype Event = Start(key: string, options: Value) | Finish(key: string) | Reject(key: string) | TimerFires

  function Step(s: DedupeState, e: Event): DedupeState {
    match e
    case Start(key, options) => Begin(s, key, options)
    case Finish(key) => Resume(s, key)
    case Reject(_) => s
    case TimerFires => if s.timers == [] then s else Fire(s)
  }

  function Run(s: DedupeState, events: seq<Event>): DedupeState
    decreases |events|
  {
    if events == [] then s else Run(Step(s, events[0]), events[1..])
  }

  /** Every operation in flight is a request for its own key. */
  ghost predicate Filed(s: DedupeState) {
    forall key :: key in s.inFlight ==> s.inFlight[key] < |s.calls| && s.calls[s.inFlight[key]].key == key
  }

  lemma FiledStep(s: DedupeState, e: Event)
    requires Filed(s)
    ensures Filed(Step(s, e))
  {
  }

  /** The caller awaits an operation for its own key; a new one when it starts a call. */
  lemma AwaitsOwnKey(s: DedupeState, key: string, options: Value)
    requires Filed(s)
    ensures Awaited(s, key, options) < |Begin(s, key, options).calls|
    ensures Begin(s, key, options).calls[Awaited(s, key, options)].key == key
    ensures !IsGet(options) || key !in s.inFlight ==> Awaited(s, key, options) == |s.calls|
    ensures IsGet(options) && key in s.inFlight ==> Awaited(s, key, options) == s.inFlight[key] && Begin(s, key, options) == s
  {
  }

  /** `n` callers for the same key, one after the other with no await in between. */
  function Starts(key: string, options: Value, n: nat): (r: seq<Event>)
    ensures |r| == n && forall i :: 0 <= i < n ==> r[i] == Start(key, options)
  {
    seq(n, i => Start(key, options))
  }

  /** Concurrent identical GETs act as one: the first decides, the others join its operation. */
  lemma {:induction false} ConcurrentGets(s: DedupeState, key: string, options: Value, n: nat)
    requires IsGet(options) && n >= 1
    ensures Run(s, Starts(key, options, n)) == Begin(s, key, options)
    ensures |Run(s, Starts(key, options, n)).calls| == |s.calls| + (if key in s.inFlight then 0 else 1)
    decreases n
  {
    var evs := Starts(key, options, n);
    var first := Begin(s, key, options);
    assert Run(s, evs) == Run(first, evs[1..]);
    if n > 1 {
      assert evs[1..] == Starts(key, options, n - 1);
      ConcurrentGets(first, key, options, n - 1);
      assert Begin(first, key, options) == first;
    } else {
      assert evs[1..] == [];
    }
  }

  /** Calls that are not GETs are never deduplicated: `n` of them reach the fetcher `n` times. */
  lemma {:induction false} OtherMethodsAlwaysCall(s: DedupeState, key: string, options: Value, n: nat)
    requires !IsGet(options)
    ensures |Run(s, Starts(key, options, n)).calls| == |s.calls| + n
    ensures n >= 1 ==> key in Run(s, Starts(key, options, n)).inFlight && Run(s, Starts(key, options, n)).inFlight[key] == |s.calls| + n - 1
    decreases n
  {
    var evs := Starts(key, options, n);
    if n > 0 {
      assert Run(s, evs) == Run(Begin(s, key, options), evs[1..]);
      assert evs[1..] == Starts(key, options, n - 1);
      OtherMethodsAlwaysCall(Begin(s, key, options), key, options, n - 1);
    }
  }

  /** The requests in `calls` are for distinct keys, none of them in `held`. */
  ghost predicate FreshKeys(held: set<string>, calls: seq<FetchRequest>) {
    && (forall i :: 0 <= i < |calls| ==> calls[i].key !in held)
    && (forall i, j :: 0 <= i < j < |calls| ==> calls[i].key != calls[j].key)
  }

  /** Until a timer fires, GETs cause at most one fetch for each key, and none for a key in flight. */
  lemma {:induction false} SingleFlight(s: DedupeState, events: seq<Event>)
    requires forall i :: 0 <= i < |events| ==> events[i].Finish? || (events[i].Start? && IsGet(events[i].options))
    ensures |s.calls| <= |Run(s, events).calls| && Run(s, events).calls[..|s.calls|] == s.calls
    ensures s.inFlight.Keys <= Run(s, events).inFlight.Keys
    ensures FreshKeys(s.inFlight.Keys, Run(s, events).calls[|s.calls|..])
    decreases |events|
  {
    if events != [] {
      var t := Step(s, events[0]);
      forall i | 0 <= i < |events[1..]|
        ensures events[1..][i].Finish? || (events[1..][i].Start? && IsGet(events[1..][i].options))
      {
        assert events[1..][i] == events[i + 1];
      }
      SingleFlight(t, events[1..]);
      var r := Run(s, events);
      assert r == Run(t, events[1..]);
      var added := r.calls[|s.calls|..];
      var later := r.calls[|t.calls|..];
      if |t.calls| == |s.calls| + 1 {
        var key := events[0].key;
        assert key in t.inFlight && key !in s.inFlight;
        assert t.calls[..|s.calls|] == s.calls;
        assert r.calls[..|s.calls|] == s.calls;
        assert added == [t.calls[|s.calls|]] + later;
        assert t.calls[|s.calls|].key == key;
      } else {
        assert t.calls == s.calls;
      }
    }
  }

  /**
   * A rejected operation poisons its key: with no timer pending for the key, the entry stays in
   * flight through any number of further GETs, rejections and timers, and every such GET joins
   * the rejected operation without reaching the fetcher.
   */
  lemma {:induction false} RejectedKeyStays(s: DedupeState, key: string, options: Value, events: seq<Event>)
    requires IsGet(options) && key in s.inFlight && key !in s.timers
    requires forall i :: 0 <= i < |events| ==> events[i] == Start(key, options) || events[i].Reject? || events[i].TimerFires?
    ensures key in Run(s, events).inFlight && Run(s, events).inFlight[key] == s.inFlight[key]
    ensures Run(s, events).calls == s.calls
    decreases |events|
  {
    if events != [] {
      var t := Step(s, events[0]);
      if events[0].TimerFires? && s.timers != [] {
        assert s.timers[0] != key;
        assert forall x :: x in s.timers[1..] ==> x in s.timers;
      }
      assert key in t.inFlight && t.inFlight[key] == s.inFlight[key] && t.calls == s.calls && key !in t.timers;
      forall i | 0 <= i < |events[1..]|
        ensures events[1..][i] == Start(key, options) || events[1..][i].Reject? || events[1..][i].TimerFires?
      {
        assert events[1..][i] == events[i + 1];
      }
      RejectedKeyStays(t, key, options, events[1..]);
    }
  }

  /** A GET whose fetch rejects leaves its entry behind, so the next GET for the key never fetches. */
  lemma RejectionPoisonsKey(key: string, get: Value)
    requires IsGet(get)
    ensures var s := Run(Idle, [Start(key, get), Reject(key), TimerFires, Start(key, get)]);
      |s.calls| == 1 && key in s.inFlight && s.inFlight[key] == 0
  {
    var s1 := Begin(Idle, key, get);
    var evs := [Start(key, get), Reject(key), TimerFires, Start(key, get)];
    assert Run(Idle, evs) == Run(s1, evs[1..]);
    assert evs[1..] == [Reject(key), TimerFires, Start(key, get)];
    assert Run(s1, evs[1..]) == Run(s1, [TimerFires, Start(key, get)]);
    assert Run(s1, [TimerFires, Start(key, get)]) == Run(s1, [Start(key, get)]);
    assert Run(s1, [Start(key, get)]) == Run(s1, []);
  }

  /** A fired timer deletes its key even when a later call has overwritten the entry. */
  lemma FireDeletesByKey(s: DedupeState, other: string)
    requires s.timers != []
    ensures s.timers[0] !in Fire(s).inFlight
    ensures other != s.timers[0] && other in s.inFlight ==> other in Fire(s).inFlight && Fire(s).inFlight[other] == s.inFlight[other]
  {
  }

  /**
   * A GET and a POST for the same key overlap; when the GET's timer fires it removes the POST's
   * entry, so the next GET fetches again instead of joining the POST.
   */
  lemma OverwrittenEntryForgotten(key: string, get: Value, post: Value)
    requires IsGet(get) && !IsGet(post)
    ensures var s := Run(Idle, [Start(key, get), Start(key, post), Finish(key), TimerFires, Start(key, get)]);
      |s.calls| == 3 && key in s.inFlight && s.inFlight[key] == 2
  {
    var s1 := Begin(Idle, key, get);
    var s2 := Begin(s1, key, post);
    var s3 := Resume(s2, key);
    var s4 := Fire(s3);
    var s5 := Begin(s4, key, get);
    assert key !in s4.inFlight;
    var evs := [Start(key, get), Start(key, post), Finish(key), TimerFires, Start(key, get)];
    assert Run(Idle, evs) == Run(s1, evs[1..]);
    assert Run(s1, evs[1..]) == Run(s2, evs[2..]);
    assert Run(s2, evs[2..]) == Run(s3, evs[3..]);
    assert Run(s3, evs[3..]) == Run(s4, evs[4..]);
    assert Run(s4, evs[4..]) == Run(s5, evs[5..]);
  }

  /** `SWRDedupeMiddleware(fetcher)`: the layer's state, held in place. */
  class DedupeLayer {
    var inFlight: map<string, nat>
    var timers: seq<string>
    var calls: seq<FetchRequest>
    ghost var fetcherCalls: nat

    ghost predicate Valid()
      reads this
    {
      fetcherCalls == |calls| && Filed(State())
    }

    function State(): DedupeState
      reads this
    {
      DedupeState(inFlight, timers, calls)
    }

    constructor ()
      ensures Valid() && State() == Idle && fetcherCalls == 0
    {
      inFlight := map[];
      timers := [];
      calls := [];
      fetcherCalls := 0;
    }

    /** A caller arrives: the fetcher is called unless a GET joins an operation in flight. */
    method Call(key: string, options: Value) returns (op: nat)
      requires Valid()
      modifies this
      ensures Valid() && State() == Begin(old(State()), key, options)
      ensures op == Awaited(old(State()), key, options)
      ensures fetcherCalls == old(fetcherCalls) + (if !IsGet(options) || key !in old(inFlight) then 1 else 0)
    {
      if !IsGet(options) || key !in inFlight {
        inFlight := inFlight[key := |calls|];
        calls := calls + [FetchRequest(key, options)];
        fetcherCalls := fetcherCalls + 1;
      }
      op := inFlight[key];
    }

    /** The caller's await finishes and schedules the deletion of its key. */
    method Resumed(key: string)
      requires Valid()
      modifies this
      ensures Valid() && State() == Resume(old(State()), key) && fetcherCalls == old(fetcherCalls)
    {
      timers := timers + [key];
    }

    /** The oldest pending timer fires. */
    method FireTimer() returns (key: string)
      requires Valid() && timers != []
      modifies this
      ensures Valid() && State() == Fire(old(State())) && key == old(timers[0]) && fetcherCalls == old(fetcherCalls)
    {
      key := timers[0];
      if key in inFlight {
        inFlight := inFlight - {key};
      }
      timers := timers[1..];
    }
  }

  // ---------------------------------------------------------------------------------------------
  // The cache layer
  // ---------------------------------------------------------------------------------------------

  /** What the cache layer does with a request: answer it from the cache, or fetch (and maybe write the result through). */
  datatype CacheStep = Serve(v: Value) | Fetch(writeBack: bool)

  /** The cache is consulted only for a GET with neither `swr` nor `skipCache` set. */
  predicate ReadsCache(options: Value) {
    IsGet(options) && !Truthy(Prop(options, "swr")) && !Truthy(Prop(options, "skipCache"))
  }

  /** `cache.get(key)?.data`: the SWR cache, seen as the data it holds per key. */
  function Stored(store: map<string, Value>, key: string): Value {
    if key in store then store[key] else Undefined
  }

  /** The cache layer as written: a hit with data `d` answers `d?.data`. */
  function CachePlanAsWritten(store: map<string, Value>, key: string, options: Value): CacheStep {
    if ReadsCache(options) && Truthy(Stored(store, key)) then Serve(Prop(Stored(store, key), "data"))
    else Fetch(!Truthy(Prop(options, "swr")))
  }

  /** The cache layer as intended: a hit answers the cached data itself. */
  function CachePlan(store: map<string, Value>, key: string, options: Value): CacheStep {
    if ReadsCache(options) && Truthy(Stored(store, key)) then Serve(Stored(store, key))
    else Fetch(!Truthy(Prop(options, "swr")))
  }

  /** The cache layer a composed middleware runs: the layer as written, or the corrected one. */
  function LayerPlan(corrected: bool, store: map<string, Value>, key: string, options: Value): CacheStep {
    if corrected then CachePlan(store, key, options) else CachePlanAsWritten(store, key, options)
  }

  /** `mutate(key, …)` after a fetch that writes its result through. */
  function WriteBack(store: map<string, Value>, key: string, step: CacheStep, result: Value): map<string, Value> {
    if step.Fetch? && step.writeBack then store[key := result] else store
  }

  /**
   * A request is answered from the cache exactly when it reads the cache and truthy data is
   * stored under its key; a fetched result is written through exactly when `swr` is unset.
   */
  lemma CacheConsulted(store: map<string, Value>, key: string, options: Value)
    ensures CachePlan(store, key, options).Serve? <==> ReadsCache(options) && Truthy(Stored(store, key))
    ensures CachePlan(store, key, options).Fetch? ==> (CachePlan(store, key, options).writeBack <==> !Truthy(Prop(options, "swr")))
    ensures !ReadsCache(options) ==> CachePlan(store, key, options) == CachePlanAsWritten(store, key, options)
  {
  }

  /** After a GET has written its truthy result through, the next GET for the key is answered with that result. */
  lemma ReadAfterWrite(store: map<string, Value>, key: string, options: Value, result: Value)
    requires ReadsCache(options) && Truthy(result)
    ensures CachePlan(WriteBack(store, key, CachePlan(store, key, options), result), key, options)
      == Serve(if Truthy(Stored(store, key)) then Stored(store, key) else result)
  {
  }

  /** As written, the next GET after such a write is answered with the `data` property of the result. */
  lemma ReadAfterWriteAsWritten(store: map<string, Value>, key: string, options: Value, result: Value)
    requires ReadsCache(options) && Truthy(result)
    ensures CachePlanAsWritten(WriteBack(store, key, CachePlanAsWritten(store, key, options), result), key, options)
      == Serve(Prop(if Truthy(Stored(store, key)) then Stored(store, key) else result, "data"))
  {
  }

  /** As written, the same GET is answered with `result.data`: for the data "foo" it is `undefined`. */
  lemma CachedReadAsWritten(key: string, options: Value)
    requires ReadsCache(options)
    ensures var store := WriteBack(map[], key, CachePlanAsWritten(map[], key, options), Str("foo"));
      CachePlanAsWritten(store, key, options) == Serve(Undefined)
  {
  }

  /** The SWR cache as the client middleware sees it, updated in place by `mutate`. */
  class SwrCache {
    var store: map<string, Value>

    constructor ()
      ensures store == map[]
    {
      store := map[];
    }

    /** `mutate(key, await promise)` once a write-through fetch has its result. */
    method Complete(key: string, step: CacheStep, result: Value)
      modifies this
      ensures store == WriteBack(old(store), key, step, result)
    {
      if step.Fetch? && step.writeBack {
        store := store[key := result];
      }
    }

    /** `cache.set(promise, data)`: writes `data` under the call's key and so suspends the call. */
    method Set(call: Call, data: Value)
      modifies this, call
      ensures call.suspended && store == old(store)[call.RequestKey() := data]
      ensures call.phase == old(call.phase) && call.fetcherCalls == old(call.fetcherCalls)
    {
      var key := call.Key();
      store := store[key := data];
    }

    /** `cache.read(promise)`: the data under the call's key, `undefined` when there is no entry; suspends the call too. */
    method Read(call: Call) returns (v: Value)
      modifies call
      ensures call.suspended && v == Stored(store, call.RequestKey())
      ensures call.phase == old(call.phase) && call.fetcherCalls == old(call.fetcherCalls)
    {
      var key := call.Key();
      v := if key in store then store[key] else Undefined;
    }
  }

  // ---------------------------------------------------------------------------------------------
  // The composed middleware
  // ---------------------------------------------------------------------------------------------

  /**
   * `createSWRMiddleware()(fetcher)`: the dedupe layer around the cache layer around the fetcher.
   * The cache layer is the one as written, or, when `corrected` holds, the one whose hit answers
   * the cached data itself.  `fetcherCalls` counts the calls that reach the fetcher itself.
   */
  class SwrStack {
    const corrected: bool
    const dedupe: DedupeLayer
    const cache: SwrCache
    ghost var fetcherCalls: nat

    constructor (corrected: bool)
      ensures this.corrected == corrected && fresh(dedupe) && fresh(cache)
      ensures dedupe.Valid() && dedupe.State() == Idle && cache.store == map[] && fetcherCalls == 0
    {
      this.corrected := corrected;
      dedupe := new DedupeLayer();
      cache := new SwrCache();
      fetcherCalls := 0;
    }

    /**
     * A caller arrives.  A GET for a key in flight joins that operation and returns `None`; any
     * other request goes on to the cache layer, which answers it or calls the fetcher.
     */
    method Request(key: string, options: Value) returns (op: nat, step: Option<CacheStep>)
      requires dedupe.Valid()
      modifies this, dedupe
      ensures dedupe.Valid() && dedupe.State() == Begin(old(dedupe.State()), key, options)
      ensures op == Awaited(old(dedupe.State()), key, options)
      ensures IsGet(options) && key in old(dedupe.inFlight) ==> step == None && fetcherCalls == old(fetcherCalls)
      ensures !IsGet(options) || key !in old(dedupe.inFlight) ==>
        && step == Some(LayerPlan(corrected, cache.store, key, options))
        && fetcherCalls == old(fetcherCalls) + (if step.value.Fetch? then 1 else 0)
    {
      var before := |dedupe.calls|;
      op := dedupe.Call(key, options);
      if |dedupe.calls| == before {
        step := None;
      } else {
        var plan := LayerPlan(corrected, cache.store, key, options);
        if plan.Fetch? {
          fetcherCalls := fetcherCalls + 1;
        }
        step := Some(plan);
      }
    }

    /**
     * The operation a caller awaited fulfils with `result`: it is written through as planned, and
     * the caller schedules its timer.  A rejected operation changes nothing (`Swr.RejectedKeyStays`).
     */
    method Settle(key: string, step: CacheStep, result: Value)
      requires dedupe.Valid()
      modifies dedupe, cache
      ensures dedupe.Valid() && dedupe.State() == Resume(old(dedupe.State()), key)
      ensures cache.store == WriteBack(old(cache.store), key, step, result)
    {
      cache.Complete(key, step, result);
      dedupe.Resumed(key);
    }

    method FireTimer() returns (key: string)
      requires dedupe.Valid() && dedupe.timers != []
      modifies dedupe
      ensures dedupe.Valid() && dedupe.State() == Fire(old(dedupe.State())) && key == old(dedupe.timers[0])
    {
      key := dedupe.FireTimer();
    }
  }

  /** Three concurrent GETs of the same key reach the fetcher once, whichever cache layer runs. */
  method ThreeConcurrentGets(key: string, options: Value, corrected: bool) returns (passedOn: nat, ghost fetches: nat)
    requires ReadsCache(options)
    ensures passedOn == 1 && fetches == 1
  {
    var stack := new SwrStack(corrected);
    var op1, step1 := stack.Request(key, options);
    var op2, step2 := stack.Request(key, options);
    var op3, step3 := stack.Request(key, options);
    passedOn := |stack.dedupe.calls|;
    fetches := stack.fetcherCalls;
  }

  /**
   * A GET, settled and forgotten by the dedupe layer, then the same GET again: the second is
   * passed on to the cache layer but answered from the cache, so the fetcher is called once.  The
   * corrected layer gives the second caller the first result; the layer as written gives it the
   * result's `data` property.
   */
  method SecondGetServedFromCache(key: string, options: Value, result: Value, corrected: bool)
    returns (answer: Option<CacheStep>, ghost fetches: nat)
    requires ReadsCache(options) && Truthy(result)
    ensures answer == Some(Serve(if corrected then result else Prop(result, "data"))) && fetches == 1
  {
    var stack := new SwrStack(corrected);
    var op1, step1 := stack.Request(key, options);
    stack.Settle(key, step1.value, result);
    var _ := stack.FireTimer();
    var op2;
    op2, answer := stack.Request(key, options);
    fetches := stack.fetcherCalls;
  }
}
