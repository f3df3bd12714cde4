/** The part of JavaScript's value semantics that the HTTP gateway relies on:
    truthiness, property access (which throws on null and undefined),
    `hasOwnProperty`, the keys a `for…in` loop visits, and one-level
    `Array.prototype.flat`. Values are those a JSON body can carry, plus
    `undefined`. */
module JsValues {

  datatype Value =
    | Undefined
    | Null
    | Bool(b: bool)
    | Num(n: int)
    | Str(s: string)
    | Arr(items: seq<Value>)
    | Obj(props: seq<Property>)

  /** An object is its own properties in insertion order. Should a key occur
      twice, the first occurrence is the property. */
  datatype Property = Property(key: string, value: Value)

  /** The result of an operation that may throw a TypeError. */
  datatype Thrown<T> = Returned(value: T) | ThrowsTypeError

  /** A property key: a name, or the index of an array element or of a
      character of a string. */
  datatype Key = Name(name: string) | Index(index: nat)

  /** `false`, `0`, `""`, `null` and `undefined` are falsy; every array and
      every object is truthy. */
  predicate Truthy(v: Value)
    ensures Truthy(v) ==> !v.Undefined? && !v.Null?
    ensures v.Arr? || v.Obj? ==> Truthy(v)
  {
    match v
    case Undefined => false
    case Null => false
    case Bool(b) => b
    case Num(n) => n != 0
    case Str(s) => s != ""
    case Arr(_) => true
    case Obj(_) => true
  }

  /** `i` is the first property of `props` named `name`. */
  ghost predicate IsFirstKey(props: seq<Property>, name: string, i: int)
  {
    0 <= i < |props| && props[i].key == name &&
    forall j :: 0 <= j < i ==> props[j].key != name
  }

  function Lookup(props: seq<Property>, name: string): (r: Value)
    ensures (forall i :: 0 <= i < |props| ==> props[i].key != name) ==> r == Undefined
    ensures forall i :: IsFirstKey(props, name, i) ==> r == props[i].value
  {
    if props == [] then Undefined
    else if props[0].key == name then props[0].value
    else
      var r := Lookup(props[1..], name);
      assert forall i :: IsFirstKey(props, name, i) ==> IsFirstKey(props[1..], name, i - 1);
      r
  }

  /** `v[k]`: reading a property of `null` or `undefined` throws; a missing
      property reads as `undefined`. */
  function Get(v: Value, k: Key): (r: Thrown<Value>)
    ensures r.ThrowsTypeError? <==> v.Undefined? || v.Null?
    ensures v.Obj? && k.Name? ==> r == Returned(Lookup(v.props, k.name))
    ensures v.Arr? && k.Index? && k.index < |v.items| ==> r == Returned(v.items[k.index])
  {
    match v
    case Undefined => ThrowsTypeError
    case Null => ThrowsTypeError
    case Obj(props) => Returned(if k.Name? then Lookup(props, k.name) else Undefined)
    case Arr(items) => Returned(if k.Index? && k.index < |items| then items[k.index] else Undefined)
    case Str(s) => Returned(if k.Index? && k.index < |s| then Str([s[k.index]]) else Undefined)
    case _ => Returned(Undefined)
  }

  /** `v.hasOwnProperty(name)` for a name that is neither an index nor
      `length`: only an object can own it. */
  function HasOwnProperty(v: Value, name: string): (r: Thrown<bool>)
    ensures r.ThrowsTypeError? <==> v.Undefined? || v.Null?
    ensures r == Returned(true) <==> v.Obj? && exists i :: 0 <= i < |v.props| && v.props[i].key == name
  {
    match v
    case Undefined => ThrowsTypeError
    case Null => ThrowsTypeError
    case Obj(props) => Returned(exists i :: 0 <= i < |props| && props[i].key == name)
    case _ => Returned(false)
  }

  /** The keys of `props` in order of first occurrence, each once. */
  function DistinctKeys(props: seq<Property>): (r: seq<string>)
    ensures forall k :: k in r <==> exists i :: 0 <= i < |props| && props[i].key == k
    ensures forall i, j :: 0 <= i < j < |r| ==> r[i] != r[j]
  {
    if props == [] then []
    else
      var front := props[..|props| - 1];
      var rest := DistinctKeys(front);
      var k := props[|props| - 1].key;
      assert forall i :: 0 <= i < |front| ==> front[i] == props[i];
      if k in rest then rest else rest + [k]
  }

  /** The keys a `for…in` loop visits: an object's own keys, an array's or
      a string's indices; nothing for any other value. */
  function ForInKeys(v: Value): (r: seq<Key>)
    ensures v.Arr? ==> |r| == |v.items| && forall i :: 0 <= i < |r| ==> r[i] == Index(i)
    ensures v.Obj? ==> |r| == |DistinctKeys(v.props)|
    ensures v.Obj? ==> forall i :: 0 <= i < |r| ==> r[i] == Name(DistinctKeys(v.props)[i])
    ensures !(v.Obj? || v.Arr? || v.Str?) ==> r == []
  {
    match v
    case Obj(props) =>
      var names := DistinctKeys(props);
      seq(|names|, i requires 0 <= i < |names| => Name(names[i]))
    case Arr(items) => seq(|items|, i requires 0 <= i < |items| => Index(i))
    case Str(s) => seq(|s|, i requires 0 <= i < |s| => Index(i))
    case _ => []
  }

  /** What `flat()` makes of one element: an array contributes its items,
      anything else itself. */
  function Spread(v: Value): seq<Value>
  {
    if v.Arr? then v.items else [v]
  }

  /** `vs.flat()`, that is, flattening by one level. */
  function Flat(vs: seq<Value>): seq<Value>
  {
    if vs == [] then [] else Flat(vs[..|vs| - 1]) + Spread(vs[|vs| - 1])
  }

  lemma {:induction false} FlatAppend(a: seq<Value>, b: seq<Value>)
    ensures Flat(a + b) == Flat(a) + Flat(b)
    decreases |b|
  {
    if b == [] {
      assert a + b == a;
    } else {
      var b' := b[..|b| - 1];
      assert (a + b)[..|a + b| - 1] == a + b';
      FlatAppend(a, b');
    }
  }

  /** Flattening keeps every non-array element and every item of every
      array element, and produces nothing else. */
  lemma {:induction false} FlatMembers(vs: seq<Value>, x: Value)
    ensures x in Flat(vs) <==> exists i :: 0 <= i < |vs| && x in Spread(vs[i])
    decreases |vs|
  {
    if vs != [] {
      var front := vs[..|vs| - 1];
      FlatMembers(front, x);
      assert forall i :: 0 <= i < |front| ==> front[i] == vs[i];
    }
  }

  /** A list without arrays is left as it is. */
  lemma {:induction false} FlatWithoutArrays(vs: seq<Value>)
    requires forall i :: 0 <= i < |vs| ==> !vs[i].Arr?
    ensures Flat(vs) == vs
    decreases |vs|
  {
    if vs != [] {
      FlatWithoutArrays(vs[..|vs| - 1]);
    }
  }
}
