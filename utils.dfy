/**
 * The server's value utilities: a structure-preserving rewrite of every primitive leaf of a value,
 * the rewrite that turns query-string text back into booleans and numbers, and the message
 * extracted from anything thrown.
 */
module Primitives {
  import opened Values

  /** A value the rewrite hands to its callback: anything that is not a non-null object. */
  predicate IsLeaf(v: Value) {
    !IsObject(v)
  }

  /**
   * `b` has the structure of `a` above its leaves: arrays keep their length and item order,
   * objects keep their keys in order, and each leaf of `a` may have become anything.
   */
  ghost predicate SameShape(a: Value, b: Value)
    decreases a
  {
    match a
    case Arr(xs) =>
      b.Arr? && |b.items| == |xs| && forall i :: 0 <= i < |xs| ==> SameShape(xs[i], b.items[i])
    case Obj(es) =>
      b.Obj? && |b.entries| == |es| &&
      forall i :: 0 <= i < |es| ==> b.entries[i].0 == es[i].0 && SameShape(es[i].1, b.entries[i].1)
    case _ => true
  }

  /** The leaves of a value, left to right. */
  function Leaves(v: Value): seq<Value>
    decreases v, 1
  {
    match v
    case Arr(xs) => ItemLeaves(xs)
    case Obj(es) => EntryLeaves(es)
    case _ => [v]
  }

  function ItemLeaves(xs: seq<Value>): seq<Value>
    decreases xs, 0
  {
    if xs == [] then [] else Leaves(xs[0]) + ItemLeaves(xs[1..])
  }

  function EntryLeaves(es: seq<(string, Value)>): seq<Value>
    decreases es, 0
  {
    if es == [] then []
    else
      assert es[0] in es && es[0].1 < es[0];
      Leaves(es[0].1) + EntryLeaves(es[1..])
  }

  /** `leaves.map(f)`. */
  function MapAll(leaves: seq<Value>, f: Value -> Value): (r: seq<Value>)
    ensures |r| == |leaves| && forall i :: 0 <= i < |leaves| ==> r[i] == f(leaves[i])
  {
    seq(|leaves|, i requires 0 <= i < |leaves| => f(leaves[i]))
  }

  /**
   * `recursivelyModifyPrimitives(obj, callback)`: arrays are mapped item by item, objects are
   * rebuilt entry by entry into a fresh object, and every leaf is replaced by `f` of it.
   */
  function ModifyPrimitives(v: Value, f: Value -> Value): (r: Value)
    ensures SameShape(v, r)
    ensures IsLeaf(v) ==> r == f(v)
    decreases v
  {
    match v
    case Arr(xs) =>
      Arr(seq(|xs|, i requires 0 <= i < |xs| => ModifyPrimitives(xs[i], f)))
    case Obj(es) =>
      Obj(seq(|es|, i requires 0 <= i < |es| => (es[i].0, ModifyPrimitives(es[i].1, f))))
    case _ => f(v)
  }

  /** Only leaves reach the callback: the leaves of the result are the callback's images of the input's leaves, in order. */
  lemma {:induction false} LeavesOfModified(v: Value, f: Value -> Value)
    requires forall x :: IsLeaf(x) ==> IsLeaf(f(x))
    ensures Leaves(ModifyPrimitives(v, f)) == MapAll(Leaves(v), f)
    decreases v, 1
  {
    match v
    case Arr(xs) => ItemLeavesOfModified(xs, f);
    case Obj(es) => EntryLeavesOfModified(es, f);
    case _ =>
  }

  lemma {:induction false} ItemLeavesOfModified(xs: seq<Value>, f: Value -> Value)
    requires forall x :: IsLeaf(x) ==> IsLeaf(f(x))
    ensures ItemLeaves(seq(|xs|, i requires 0 <= i < |xs| => ModifyPrimitives(xs[i], f))) == MapAll(ItemLeaves(xs), f)
    decreases xs, 0
  {
    var ys := seq(|xs|, i requires 0 <= i < |xs| => ModifyPrimitives(xs[i], f));
    if xs != [] {
      var tail := seq(|xs[1..]|, i requires 0 <= i < |xs[1..]| => ModifyPrimitives(xs[1..][i], f));
      assert ys[1..] == tail;
      LeavesOfModified(xs[0], f);
      ItemLeavesOfModified(xs[1..], f);
      assert ItemLeaves(ys) == Leaves(ys[0]) + ItemLeaves(tail);
      assert MapAll(ItemLeaves(xs), f) == MapAll(Leaves(xs[0]), f) + MapAll(ItemLeaves(xs[1..]), f);
    }
  }

  lemma {:induction false} EntryLeavesOfModified(es: seq<(string, Value)>, f: Value -> Value)
    requires forall x :: IsLeaf(x) ==> IsLeaf(f(x))
    ensures EntryLeaves(seq(|es|, i requires 0 <= i < |es| => (es[i].0, ModifyPrimitives(es[i].1, f)))) == MapAll(EntryLeaves(es), f)
    decreases es, 0
  {
    var ys := seq(|es|, i requires 0 <= i < |es| => (es[i].0, ModifyPrimitives(es[i].1, f)));
    if es != [] {
      var tail := seq(|es[1..]|, i requires 0 <= i < |es[1..]| => (es[1..][i].0, ModifyPrimitives(es[1..][i].1, f)));
      assert ys[1..] == tail;
      assert es[0] in es && es[0].1 < es[0];
      LeavesOfModified(es[0].1, f);
      EntryLeavesOfModified(es[1..], f);
      assert EntryLeaves(ys) == Leaves(ys[0].1) + EntryLeaves(tail);
      assert MapAll(EntryLeaves(es), f) == MapAll(Leaves(es[0].1), f) + MapAll(EntryLeaves(es[1..]), f);
    }
  }

  /** Rewriting twice with a leaf-preserving, idempotent callback is rewriting once. */
  lemma {:induction false} ModifyTwice(v: Value, f: Value -> Value)
    requires forall x :: IsLeaf(x) ==> IsLeaf(f(x)) && f(f(x)) == f(x)
    ensures ModifyPrimitives(ModifyPrimitives(v, f), f) == ModifyPrimitives(v, f)
    decreases v
  {
    match v
    case Arr(xs) =>
      var once := ModifyPrimitives(v, f);
      forall i | 0 <= i < |xs|
        ensures ModifyPrimitives(once.items[i], f) == once.items[i]
      {
        ModifyTwice(xs[i], f);
      }
    case Obj(es) =>
      var once := ModifyPrimitives(v, f);
      forall i | 0 <= i < |es|
        ensures ModifyPrimitives(once.entries[i].1, f) == once.entries[i].1
      {
        ModifyTwice(es[i].1, f);
      }
    case _ =>
  }

  /**
   * The callback of `modifyTypes`: the text "true" and "false" become booleans, a text that is the
   * canonical form of a number becomes that number, and every other leaf is returned unchanged.
   */
  function Convert(isNumeral: string -> bool, v: Value): Value {
    if v == Str("true") then Bool(true)
    else if v == Str("false") then Bool(false)
    else if v.Str? && isNumeral(v.s) then Num(v.s)
    else v
  }

  /** `modifyTypes(object)`. */
  function ModifyTypes(v: Value, isNumeral: string -> bool): Value {
    ModifyPrimitives(v, x => Convert(isNumeral, x))
  }

  /** What the conversion does to one leaf; only strings are ever changed. */
  lemma ConvertLeaf(isNumeral: string -> bool, v: Value)
    ensures v == Str("true") ==> Convert(isNumeral, v) == Bool(true)
    ensures v == Str("false") ==> Convert(isNumeral, v) == Bool(false)
    ensures v.Str? && v.s != "true" && v.s != "false" && isNumeral(v.s) ==> Convert(isNumeral, v) == Num(v.s)
    ensures Convert(isNumeral, v) != v ==> v.Str?
    ensures IsLeaf(v) ==> IsLeaf(Convert(isNumeral, v))
  {
  }

  /**
   * `modifyTypes` preserves the shape of its input and rewrites its leaves one by one.
   */
  lemma ModifyTypesShape(v: Value, isNumeral: string -> bool)
    ensures SameShape(v, ModifyTypes(v, isNumeral))
    ensures Leaves(ModifyTypes(v, isNumeral)) == MapAll(Leaves(v), x => Convert(isNumeral, x))
  {
    LeavesOfModified(v, x => Convert(isNumeral, x));
  }

  /** `modifyTypes` is idempotent: its outputs are booleans, numbers or texts that do not convert. */
  lemma ModifyTypesIdempotent(v: Value, isNumeral: string -> bool)
    ensures ModifyTypes(ModifyTypes(v, isNumeral), isNumeral) == ModifyTypes(v, isNumeral)
  {
    ModifyTwice(v, x => Convert(isNumeral, x));
  }

  /**
   * `getUnknownErrorMessage(error)`: an Error instance (an RPCError among them) yields its
   * message, anything else its `String` conversion.
   */
  function UnknownErrorMessage(t: Thrown): (m: string)
    ensures t.ThrownRpc? ==> m == t.err.message
    ensures t.ThrownError? ==> m == t.message
    ensures t.ThrownValue? ==> m == ToJsString(t.v)
  {
    match t
    case ThrownRpc(e) => e.message
    case ThrownError(message) => message
    case ThrownValue(v) => ToJsString(v)
  }
}
