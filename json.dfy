/**
 * The JavaScript values that the carousel builder reads and writes: strings,
 * integers, arrays and plain objects, together with the two "absent" values
 * `undefined` and `null`, JavaScript truthiness and the two defaulting
 * operators `||` and `??`.
 *
 * A plain object keeps its own keys in the order they were first defined,
 * beside a map from key to value. Defining a property (`{ ..., k: v }`) keeps
 * the key where it is if it is already present and appends it otherwise, the
 * way an object literal is evaluated, and a spread (`{ ...src }`) defines every
 * key of `src` in `src`'s order. JavaScript enumerates an object's keys (for a
 * spread, `Object.keys` or `JSON.stringify`) in exactly this order as long as
 * no key is an array index; array-index keys would come first, ascending.
 */
module Json {
  import opened Wrappers
  import Numerals

  /** A JavaScript value. `Undefined` stands both for a property that was never
      defined and for one defined with the value `undefined`. */
  datatype Json =
    | Undefined
    | Null
    | Bool(b: bool)
    | Num(n: int)
    | Str(s: string)
    | Arr(elems: seq<Json>)
    | Obj(obj: Object)

  /** An array index: the canonical numeral of an integer below 2^32 - 1. Such
      keys are enumerated before all others, in ascending numeric order. */
  predicate IsArrayIndex(k: string)
  {
    Numerals.IsCanonical(k) && Numerals.Value(k) < 0xFFFF_FFFF
  }

  /** No key is an array index, so definition order is enumeration order. */
  predicate NoArrayIndex(ks: seq<string>)
  {
    forall k :: k in ks ==> !IsArrayIndex(k)
  }

  /** A key that does not start with a digit, such as `@type`, is no array index. */
  lemma NotArrayIndex(k: string)
    requires k != [] && !Numerals.IsDigit(k[0])
    ensures !IsArrayIndex(k)
  {
  }

  /** No key occurs twice. */
  predicate Distinct(xs: seq<string>)
  {
    forall i, j :: 0 <= i < j < |xs| ==> xs[i] != xs[j]
  }

  /** The elements of `xs` that do not occur in `present`, in the order of `xs`. */
  function Missing(xs: seq<string>, present: seq<string>): seq<string>
  {
    if xs == [] then []
    else (if xs[0] in present then [] else [xs[0]]) + Missing(xs[1..], present)
  }

  /** `Missing` keeps exactly the absent elements, and keeps them distinct. */
  lemma {:induction false} MissingMembers(xs: seq<string>, present: seq<string>)
    ensures forall x :: x in Missing(xs, present) <==> x in xs && x !in present
    ensures Distinct(xs) ==> Distinct(Missing(xs, present))
  {
    if xs != [] {
      MissingMembers(xs[1..], present);
    }
  }

  /** Adding to `present` a key that `xs` does not hold leaves the missing keys as they were. */
  lemma {:induction false} MissingExtend(xs: seq<string>, present: seq<string>, y: string)
    requires y !in xs
    ensures Missing(xs, present + [y]) == Missing(xs, present)
  {
    if xs != [] {
      assert xs[0] in present + [y] <==> xs[0] in present;
      MissingExtend(xs[1..], present, y);
    }
  }

  /** When every element of `xs` is already present, nothing is missing. */
  lemma {:induction false} MissingNone(xs: seq<string>, present: seq<string>)
    requires forall x :: x in xs ==> x in present
    ensures Missing(xs, present) == []
  {
    if xs != [] {
      assert xs[0] in present;
      MissingNone(xs[1..], present);
    }
  }

  /** The key order after defining `k` and then spreading `tail` is the key
      order after spreading `[k] + tail`. */
  lemma KeysAfterPut(keys: seq<string>, k: string, tail: seq<string>)
    requires k !in tail
    ensures var after := if k in keys then keys else keys + [k];
            after + Missing(tail, after) == keys + Missing([k] + tail, keys)
  {
    var rest := Missing(tail, keys);
    assert ([k] + tail)[1..] == tail;
    assert Missing([k] + tail, keys) == (if k in keys then [] else [k]) + rest;
    if k !in keys {
      MissingExtend(tail, keys, k);
      assert (keys + [k]) + rest == keys + ([k] + rest);
    }
  }

  /** A plain JavaScript object: its own keys in definition order and their values. */
  datatype Object = Object(keys: seq<string>, vals: map<string, Json>) {

    /** The keys are listed once each, and they are exactly the keys with a value. */
    ghost predicate Valid()
    {
      Distinct(keys) && forall k :: k in vals <==> k in keys
    }

    /** `k in this` for an own property. */
    predicate Has(k: string)
    {
      k in vals
    }

    /** Property read `this[k]`: `undefined` for a key the object does not have. */
    function Get(k: string): Json
    {
      if k in vals then vals[k] else Undefined
    }

    /** Defining property `k` with value `v`, as one entry of an object literal
        does: a key already present keeps its place, a new key goes last. */
    function Put(k: string, v: Json): Object
    {
      Object(if k in vals then keys else keys + [k], vals[k := v])
    }

    /** Defining a property keeps an object well formed. */
    lemma PutValid(k: string, v: Json)
      requires Valid()
      ensures Put(k, v).Valid()
    {
    }

    /** Defining, in order, the properties `ks` with the values they have in `src`. */
    function SpreadKeys(src: Object, ks: seq<string>): (r: Object)
      requires Valid() && Distinct(ks)
      requires forall k :: k in ks ==> k in src.vals
      ensures r.Valid()
      ensures forall j :: r.Get(j) == if j in ks then src.Get(j) else Get(j)
      ensures forall j :: r.Has(j) <==> j in ks || Has(j)
      ensures r.keys == keys + Missing(ks, keys)
      decreases |ks|
    {
      if ks == [] then this
      else
        PutValid(ks[0], src.vals[ks[0]]);
        var next := Put(ks[0], src.vals[ks[0]]);
        assert ks == [ks[0]] + ks[1..];
        assert ks[0] !in ks[1..];
        KeysAfterPut(keys, ks[0], ks[1..]);
        var r := next.SpreadKeys(src, ks[1..]);
        r
    }

    /** The spread `{ ...this, ...src }`: every own property of `src`, in `src`'s
        key order, is defined on top of this object. */
    function Spread(src: Object): (r: Object)
      requires Valid() && src.Valid()
      ensures r.Valid()
      ensures forall j :: r.Get(j) == if src.Has(j) then src.Get(j) else Get(j)
      ensures forall j :: r.Has(j) <==> src.Has(j) || Has(j)
      ensures r.keys == keys + Missing(src.keys, keys)
      ensures NoArrayIndex(keys) && NoArrayIndex(src.keys) ==> NoArrayIndex(r.keys)
    {
      SpreadKeys(src, src.keys)
    }

    /** The rest element of an object pattern `{ n1, ..., nk, ...rest } = this`:
        a fresh object with every own property except the named ones, in order. */
    function Without(names: seq<string>): (r: Object)
      requires Valid()
      ensures r.Valid()
      ensures forall j :: r.Get(j) == if j in names then Undefined else Get(j)
      ensures forall j :: r.Has(j) <==> Has(j) && j !in names
      ensures r.keys == Missing(keys, names)
      ensures NoArrayIndex(keys) ==> NoArrayIndex(r.keys)
    {
      MissingMembers(keys, names);
      Object(Missing(keys, names), map k | k in vals && k !in names :: vals[k])
    }
  }

  /** The empty object literal `{}`. */
  const Empty: Object := Object([], map[])

  /** Property read `j[k]` on any value, `undefined` when `j` is not an object. */
  function Prop(j: Json, k: string): Json
  {
    if j.Obj? then j.obj.Get(k) else Undefined
  }

  /** JavaScript truthiness: `undefined`, `null`, `false`, `0` and `""` are falsy,
      every other value (arrays and objects included, even empty ones) is truthy. */
  predicate Truthy(j: Json)
  {
    match j
    case Undefined => false
    case Null => false
    case Bool(b) => b
    case Num(n) => n != 0
    case Str(s) => s != ""
    case Arr(_) => true
    case Obj(_) => true
  }

  /** `undefined` or `null`, the values `??` replaces. */
  predicate Nullish(j: Json)
  {
    j.Undefined? || j.Null?
  }

  /** `a || b`: the left operand when it is truthy, otherwise the right one. */
  function Or(a: Json, b: Json): (r: Json)
    ensures Truthy(r) <==> Truthy(a) || Truthy(b)
    ensures Truthy(a) ==> r == a
    ensures !Truthy(a) ==> r == b
  {
    if Truthy(a) then a else b
  }

  /** `a ?? b`: the left operand unless it is `undefined` or `null`; falsy values
      such as `0` and `""` are kept. */
  function Coalesce(a: Json, b: Json): (r: Json)
    ensures Nullish(r) <==> Nullish(a) && Nullish(b)
    ensures !Nullish(a) ==> r == a
    ensures Nullish(a) ==> r == b
  {
    if Nullish(a) then b else a
  }

  /** An optional string field as the value read from it. */
  function OptStr(o: Option<string>): (r: Json)
    ensures o.None? <==> r == Undefined
    ensures o.Some? ==> r == Str(o.value)
  {
    match o
    case None => Undefined
    case Some(s) => Str(s)
  }

  /** An optional number field as the value read from it. */
  function OptNum(o: Option<int>): (r: Json)
    ensures o.None? <==> r == Undefined
    ensures o.Some? ==> r == Num(o.value)
  {
    match o
    case None => Undefined
    case Some(n) => Num(n)
  }
}
