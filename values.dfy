/**
 * JavaScript values as the core sees them: the data that travels as procedure input, context and
 * results.  A number is identified by its canonical text `String(n)` (floating point is not
 * modelled); an object is its sequence of own enumerable entries, in insertion order, with
 * distinct keys.
 */
module Values {
  import opened Wrappers
  import opened Errors

  datatype Value =
    | Undefined
    | Null
    | Bool(b: bool)
    | Num(text: string)
    | Str(s: string)
    | Arr(items: seq<Value>)
    | Obj(entries: seq<(string, Value)>)

  /** JavaScript truthiness: `undefined`, `null`, `false`, `0`, `NaN` and `""` are falsy. */
  predicate Truthy(v: Value) {
    match v
    case Undefined => false
    case Null => false
    case Bool(b) => b
    case Num(t) => t != "0" && t != "NaN"
    case Str(s) => s != ""
    case _ => true
  }

  /** `typeof v === "object" && v !== null`. */
  predicate IsObject(v: Value) {
    v.Arr? || v.Obj?
  }

  /** A key among an object's own entries. */
  predicate HasKey(entries: seq<(string, Value)>, k: string) {
    exists i :: 0 <= i < |entries| && entries[i].0 == k
  }

  /** The value stored under `k` in a list of entries (the first one), or `undefined`. */
  function Lookup(entries: seq<(string, Value)>, k: string): (r: Value)
    ensures !HasKey(entries, k) ==> r == Undefined
    ensures HasKey(entries, k) ==> exists i :: 0 <= i < |entries| && entries[i] == (k, r)
  {
    if entries == [] then Undefined
    else if entries[0].0 == k then entries[0].1
    else
      var r := Lookup(entries[1..], k);
      assert HasKey(entries[1..], k) ==> forall i :: 0 <= i < |entries[1..]| ==> entries[1..][i] == entries[i + 1];
      r
  }

  /**
   * Property access `v?.[k]` as the core uses it (`body?.input`, `cached?.data`): an object's own
   * entry, and `undefined` for anything else.
   */
  function Prop(v: Value, k: string): Value {
    if v.Obj? then Lookup(v.entries, k) else Undefined
  }

  /**
   * `isError(v)`: `v !== null && typeof v === "object" && "error" in v`.  Arrays have no `error`
   * property, so only objects with an own `error` key qualify.
   */
  predicate IsError(v: Value) {
    IsObject(v) && v.Obj? && HasKey(v.entries, "error")
  }

  /** The error value `{error: code}` that procedures and the client return instead of throwing. */
  function ErrorObject(code: Value): (r: Value)
    ensures IsError(r) && Prop(r, "error") == code
  {
    var r := Obj([("error", code)]);
    assert r.entries[0].0 == "error";
    r
  }

  /** What a JavaScript `throw` can carry: an RPCError, another Error instance, or any other value. */
  datatype Thrown =
    | ThrownRpc(err: RpcError)
    | ThrownError(message: string)
    | ThrownValue(v: Value)

  /** `String(v)`. */
  function ToJsString(v: Value): string {
    match v
    case Undefined => "undefined"
    case Null => "null"
    case Bool(b) => if b then "true" else "false"
    case Num(t) => t
    case Str(s) => s
    case Arr(xs) => JoinItems(xs)
    case Obj(_) => "[object Object]"
  }

  /** `xs.join(",")`, where `undefined` and `null` items become empty text. */
  function JoinItems(xs: seq<Value>): string
    decreases xs, 0
  {
    if xs == [] then ""
    else
      assert xs[0] in xs;
      var head := if xs[0].Undefined? || xs[0].Null? then "" else ToJsString(xs[0]);
      if |xs| == 1 then head else head + "," + JoinItems(xs[1..])
  }

  // ---------------------------------------------------------------------------------------------
  // Writing into objects
  // ---------------------------------------------------------------------------------------------

  lemma HasKeyCons(e: (string, Value), rest: seq<(string, Value)>, k: string)
    ensures HasKey([e] + rest, k) <==> e.0 == k || HasKey(rest, k)
  {
    var es := [e] + rest;
    if HasKey(rest, k) {
      var i :| 0 <= i < |rest| && rest[i].0 == k;
      assert es[i + 1].0 == k;
    }
    if HasKey(es, k) && e.0 != k {
      var i :| 0 <= i < |es| && es[i].0 == k;
      assert rest[i - 1].0 == k;
    }
    assert es[0] == e;
  }

  /** `entries[key] = value`: an existing key keeps its position, a new one goes last. */
  function SetEntry(entries: seq<(string, Value)>, key: string, value: Value): (r: seq<(string, Value)>)
    ensures HasKey(entries, key) ==> |r| == |entries|
    ensures !HasKey(entries, key) ==> r == entries + [(key, value)]
    ensures HasKey(r, key) && Lookup(r, key) == value
    ensures forall k :: k != key ==> Lookup(r, k) == Lookup(entries, k) && (HasKey(r, k) <==> HasKey(entries, k))
  {
    if entries == [] then
      HasKeyCons((key, value), [], key);
      [(key, value)]
    else
      assert entries == [entries[0]] + entries[1..];
      HasKeyConsAll(entries[0], entries[1..]);
      if entries[0].0 == key then
        var r := [(key, value)] + entries[1..];
        HasKeyConsAll((key, value), entries[1..]);
        r
      else
        var rest := SetEntry(entries[1..], key, value);
        HasKeyConsAll(entries[0], rest);
        [entries[0]] + rest
  }

  lemma HasKeyConsAll(e: (string, Value), rest: seq<(string, Value)>)
    ensures forall k :: HasKey([e] + rest, k) <==> e.0 == k || HasKey(rest, k)
  {
    forall k ensures HasKey([e] + rest, k) <==> e.0 == k || HasKey(rest, k) {
      HasKeyCons(e, rest, k);
    }
  }

  /** The own entries of `source` copied into `entries` one by one, as `Object.assign` does. */
  function AssignEntries(entries: seq<(string, Value)>, source: seq<(string, Value)>): seq<(string, Value)>
    decreases |source|
  {
    if source == [] then entries else AssignEntries(SetEntry(entries, source[0].0, source[0].1), source[1..])
  }

  /** `Object.assign(target, source)` for a source that is an object, `undefined` or `null`. */
  function Assigned(entries: seq<(string, Value)>, source: Value): (r: seq<(string, Value)>)
    ensures !source.Obj? || source.entries == [] ==> r == entries
  {
    if source.Obj? then AssignEntries(entries, source.entries) else entries
  }

  /** Every key of the source is a key of the result. */
  lemma {:induction false} AssignAddsKeys(entries: seq<(string, Value)>, source: seq<(string, Value)>, k: string)
    requires HasKey(entries, k) || HasKey(source, k)
    ensures HasKey(AssignEntries(entries, source), k)
    decreases |source|
  {
    if source != [] {
      var next := SetEntry(entries, source[0].0, source[0].1);
      if !HasKey(next, k) {
        var i :| 0 <= i < |source| && source[i].0 == k;
        assert source[1..][i - 1].0 == k;
      }
      AssignAddsKeys(next, source[1..], k);
    }
  }

  /** A key that the source does not have keeps the target's value. */
  lemma {:induction false} AssignKeepsOthers(entries: seq<(string, Value)>, source: seq<(string, Value)>, k: string)
    requires !HasKey(source, k)
    ensures Lookup(AssignEntries(entries, source), k) == Lookup(entries, k)
    decreases |source|
  {
    if source != [] {
      assert source[0].0 != k;
      AssignKeepsOthers(SetEntry(entries, source[0].0, source[0].1), source[1..], k);
    }
  }

  /** An object's entries: no key occurs twice. */
  predicate DistinctKeys(entries: seq<(string, Value)>) {
    forall i, j :: 0 <= i < j < |entries| ==> entries[i].0 != entries[j].0
  }

  /** A key that the source has takes the source's value, whatever the target held. */
  lemma {:induction false} AssignWins(entries: seq<(string, Value)>, source: seq<(string, Value)>, k: string)
    requires DistinctKeys(source) && HasKey(source, k)
    ensures Lookup(AssignEntries(entries, source), k) == Lookup(source, k)
    decreases |source|
  {
    var next := SetEntry(entries, source[0].0, source[0].1);
    if source[0].0 == k {
      forall i | 0 <= i < |source[1..]| ensures source[1..][i].0 != k {
        assert source[1..][i] == source[i + 1];
      }
      AssignKeepsOthers(next, source[1..], k);
    } else {
      var i :| 0 <= i < |source| && source[i].0 == k;
      assert source[1..][i - 1].0 == k;
      assert DistinctKeys(source[1..]) by {
        forall a, b | 0 <= a < b < |source[1..]| ensures source[1..][a].0 != source[1..][b].0 {
          assert source[1..][a] == source[a + 1] && source[1..][b] == source[b + 1];
        }
      }
      AssignWins(next, source[1..], k);
    }
  }
}
