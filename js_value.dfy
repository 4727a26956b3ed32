/** The optional value that the cleaners return: `None` stands for JavaScript's `null`. */
module Wrappers {
  datatype Option<+T> = None | Some(value: T)
}

/**
 A JSON-like model of the JavaScript values the cleaners receive (they are typed `any`),
 with the parts of the language the cleaners rely on: truthiness, the two defaulting
 operators `||` and `??`, property reads with and without optional chaining, and the
 two string/array methods they call. A JavaScript exception is a `Threw` outcome.
 */
module JsValue {

  /** A JavaScript value as decoded from the YouTube API's JSON (numbers are exact reals) */
  datatype Json =
    | Undefined
    | Null
    | Bool(b: bool)
    | Num(n: real)
    | NaN
    | Str(s: string)
    | Arr(elems: seq<Json>)
    | Obj(fields: map<string, Json>)

  /** The TypeErrors the cleaners can raise */
  datatype TypeError =
    | ReadOfNullish(key: string)   // `x.key` where x is null or undefined
    | NotAFunction(name: string)   // `x.name(...)` where x has no such method
    | NoPrimitiveValue             // converting an object whose methods give no primitive

  /** The outcome of evaluating a JavaScript expression: a value, or a thrown TypeError */
  datatype Outcome<+T> = Returned(value: T) | Threw(error: TypeError)

  /** The object literal `{}` */
  const EmptyObject: Json := Obj(map[])

  function Min(a: int, b: int): int { if a <= b then a else b }

  /** `Boolean(v)`: false exactly for undefined, null, false, 0, NaN and "" */
  predicate Truthy(v: Json) {
    match v
    case Undefined | Null | NaN => false
    case Bool(b) => b
    case Num(n) => n != 0.0
    case Str(s) => s != ""
    case Arr(_) | Obj(_) => true
  }

  /** The values `??` and `?.` treat as absent */
  predicate Nullish(v: Json) { v.Undefined? || v.Null? }

  /** `a || b` */
  function Or(a: Json, b: Json): Json { if Truthy(a) then a else b }

  /** `a ?? b` */
  function Coalesce(a: Json, b: Json): Json { if Nullish(a) then b else a }

  /** `||` and `??` differ exactly on the falsy values that are not null or undefined
      (false, 0, NaN, ""), and only when the fallback is a different value. */
  lemma OrCoalesceDiffer(a: Json, b: Json)
    ensures Or(a, b) != Coalesce(a, b) <==> !Truthy(a) && !Nullish(a) && a != b
  {
  }

  /**
   `v.key` on a value that is not null or undefined. Only an object has own properties
   here: every key the cleaners read is a plain field name (no index, no `length`, no
   member of a prototype), so on an array, string, number or boolean the read gives
   undefined, as it does for a key the object lacks.
   */
  function Get(v: Json, key: string): Json
    requires !Nullish(v)
  {
    match v
    case Obj(m) => if key in m then m[key] else Undefined
    case _ => Undefined
  }

  /** `v.key` on any value: reading a property of null or undefined throws */
  function Read(v: Json, key: string): Outcome<Json> {
    if Nullish(v) then Threw(ReadOfNullish(key)) else Returned(Get(v, key))
  }

  /** `v?.key` */
  function OptionalGet(v: Json, key: string): Json {
    if Nullish(v) then Undefined else Get(v, key)
  }

  /** `v?.k1?.k2?...`: the value at the end of a path, undefined as soon as a step is absent */
  function At(v: Json, path: seq<string>): Json
    decreases |path|
  {
    if path == [] then v else At(OptionalGet(v, path[0]), path[1..])
  }

  /** Extending a path by one key reads that key, optionally, from where the path ends */
  lemma {:induction false} AtSnoc(v: Json, path: seq<string>, k: string)
    ensures At(v, path + [k]) == OptionalGet(At(v, path), k)
    decreases |path|
  {
    if path == [] {
      assert [k][1..] == [];
    } else {
      assert (path + [k])[1..] == path[1..] + [k];
      AtSnoc(OptionalGet(v, path[0]), path[1..], k);
    }
  }

  /** Reading `(v.k1 || {}).k2`, the cleaners' way to default a missing sub-record, reads
      the same value as the optional path `v?.k1?.k2`, whatever `k2` is. */
  lemma ReadThroughDefault(v: Json, k1: string)
    requires !Nullish(v)
    ensures !Nullish(Or(Get(v, k1), EmptyObject))
    ensures forall k2 :: Get(Or(Get(v, k1), EmptyObject), k2) == At(v, [k1, k2])
  {
    forall k2 ensures Get(Or(Get(v, k1), EmptyObject), k2) == At(v, [k1, k2]) {
      PathSplit(v, k1, k2);
    }
  }

  /** A direct read `v.k` of a value that is not null or undefined is the path `v?.k` */
  lemma {:induction false} ReadIsPath(v: Json, k: string)
    requires !Nullish(v)
    ensures Get(v, k) == At(v, [k])
  {
  }

  /** A path of two steps is a path of one step from the first read */
  lemma {:induction false} PathSplit(v: Json, k1: string, k2: string)
    ensures At(v, [k1, k2]) == OptionalGet(OptionalGet(v, k1), k2)
  {
    assert [k1, k2][1..] == [k2];
    assert [k2][1..] == [];
    assert At(v, [k1, k2]) == At(OptionalGet(v, k1), [k2]);
    assert At(OptionalGet(v, k1), [k2]) == At(OptionalGet(OptionalGet(v, k1), k2), []);
  }

  /** `out` is what `src?.substring(0, n)` gives: undefined for an absent string,
      otherwise the prefix of length min(|s|, n) */
  predicate IsTruncation(src: Json, out: Json, n: nat) {
    || (Nullish(src) && out == Undefined)
    || (src.Str? && out.Str? && out.s <= src.s && |out.s| == Min(|src.s|, n))
  }

  /** `out` is what `src?.slice(0, n)` gives: undefined for an absent value, otherwise the
      first min(len, n) elements of an array, or characters of a string, in order */
  predicate IsCapped(src: Json, out: Json, n: nat) {
    || (Nullish(src) && out == Undefined)
    || (src.Arr? && out.Arr? && out.elems <= src.elems && |out.elems| == Min(|src.elems|, n))
    || (src.Str? && out.Str? && out.s <= src.s && |out.s| == Min(|src.s|, n))
  }

  /** Values on which `?.substring(...)` can be called without throwing */
  predicate HasSubstring(v: Json) { Nullish(v) || v.Str? }

  /** Values on which `?.slice(...)` can be called without throwing */
  predicate HasSlice(v: Json) { Nullish(v) || v.Str? || v.Arr? }

  /** `v?.substring(0, n)`, counting Unicode scalar values where JavaScript counts UTF-16 code units */
  function OptionalSubstring(v: Json, n: nat): (r: Outcome<Json>)
    ensures r.Threw? <==> !HasSubstring(v)
    ensures r.Returned? ==> IsTruncation(v, r.value, n)
  {
    if Nullish(v) then Returned(Undefined)
    else if v.Str? then Returned(Str(v.s[..Min(|v.s|, n)]))
    else Threw(NotAFunction("substring"))
  }

  /** `v?.slice(0, n)`, for the arrays and strings that have a `slice` method */
  function OptionalSlice(v: Json, n: nat): (r: Outcome<Json>)
    ensures r.Threw? <==> !HasSlice(v)
    ensures r.Returned? ==> IsCapped(v, r.value, n)
  {
    if Nullish(v) then Returned(Undefined)
    else if v.Arr? then Returned(Arr(v.elems[..Min(|v.elems|, n)]))
    else if v.Str? then Returned(Str(v.s[..Min(|v.s|, n)]))
    else Threw(NotAFunction("slice"))
  }
}
