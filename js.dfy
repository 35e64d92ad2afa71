/**
 * The JavaScript values the audit pipeline passes around untyped: request
 * bodies, provider envelopes, decoded audit sections and browser storage.
 * Only the shapes JSON can produce are modelled, plus `undefined`.
 */
module Js {

  datatype Value =
    | Undefined
    | Null
    | Bool(b: bool)
    | Num(n: real)
    | Str(s: string)
    | Arr(items: seq<Value>)
    | Obj(fields: seq<(string, Value)>)

  /** JavaScript truthiness: `undefined`, `null`, `false`, `0` and `""` are falsy. */
  predicate Truthy(v: Value) {
    match v
    case Undefined => false
    case Null => false
    case Bool(b) => b
    case Num(n) => n != 0.0
    case Str(s) => s != ""
    case Arr(_) => true
    case Obj(_) => true
  }

  /** `null` and `undefined`: reading a property of these throws a TypeError. */
  predicate Nullish(v: Value) {
    v.Undefined? || v.Null?
  }

  /** The value stored under `key` in a field list, `undefined` when absent. */
  function Lookup(fields: seq<(string, Value)>, key: string): (r: Value)
    ensures r != Undefined ==> exists i :: 0 <= i < |fields| && fields[i] == (key, r)
    ensures (forall i :: 0 <= i < |fields| ==> fields[i].0 != key) ==> r == Undefined
  {
    if fields == [] then Undefined
    else if fields[0].0 == key then fields[0].1
    else Lookup(fields[1..], key)
  }

  /** The value under a key is the one of its first entry. */
  lemma {:induction false} LookupFirst(fields: seq<(string, Value)>, key: string, i: nat)
    requires i < |fields| && fields[i].0 == key
    requires forall j :: 0 <= j < i ==> fields[j].0 != key
    ensures Lookup(fields, key) == fields[i].1
  {
    if i > 0 {
      LookupFirst(fields[1..], key, i - 1);
    }
  }

  /**
   * `v?.key`. For values that are not nullish this is also `v.key`: a property
   * that primitives and arrays do not carry reads as `undefined`.
   */
  function Get(v: Value, key: string): Value {
    match v
    case Obj(fields) => Lookup(fields, key)
    case _ => Undefined
  }

  /** `v[0]`: the first element of an array or the first character of a string. */
  function First(v: Value): Value {
    match v
    case Arr(items) => if items == [] then Undefined else items[0]
    case Str(s) => if s == "" then Undefined else Str([s[0]])
    case Obj(_) => Get(v, "0")
    case _ => Undefined
  }

  /** `Object.values(v)` for a value that is not nullish. */
  function ObjectValues(v: Value): seq<Value>
    requires !Nullish(v)
  {
    match v
    case Obj(fields) => seq(|fields|, i requires 0 <= i < |fields| => fields[i].1)
    case Arr(items) => items
    case Str(s) => seq(|s|, i requires 0 <= i < |s| => Str([s[i]]))
    case _ => []
  }

  /** `vs.flat()`: array elements are spliced in, every other element is kept. */
  function Flat(vs: seq<Value>): (r: seq<Value>)
    ensures (forall i :: 0 <= i < |vs| ==> !vs[i].Arr?) ==> r == vs
  {
    if vs == [] then []
    else (if vs[0].Arr? then vs[0].items else [vs[0]]) + Flat(vs[1..])
  }

  /** `[v].flat()`: the items of an array, any other value on its own. */
  lemma FlatSingle(v: Value)
    ensures Flat([v]) == if v.Arr? then v.items else [v]
  {
    assert [v][1..] == [];
  }

  /** Flattening two lists one after the other is flattening their concatenation. */
  lemma {:induction false} FlatAppend(a: seq<Value>, b: seq<Value>)
    ensures Flat(a + b) == Flat(a) + Flat(b)
    decreases |a|
  {
    if a == [] {
      assert a + b == b;
    } else {
      assert (a + b)[0] == a[0];
      assert (a + b)[1..] == a[1..] + b;
      FlatAppend(a[1..], b);
    }
  }

  /** The values of an object whose fields are those of two objects in turn are their values in turn. */
  lemma ObjectValuesAppend(f: seq<(string, Value)>, g: seq<(string, Value)>)
    ensures ObjectValues(Obj(f + g)) == ObjectValues(Obj(f)) + ObjectValues(Obj(g))
  {
  }
}
