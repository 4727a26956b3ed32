/**
 JavaScript's `parseInt`, as the cleaners apply it to the YouTube API's count strings
 (`"12345"`). A string is read as its longest run of leading decimal digits; no run
 gives NaN. Leading white space, a sign and the `0x` prefix are not modelled. The
 conversion of a non-string argument to a string comes first and may throw.
 */
module JsNumber {
  import opened JsValue

  predicate IsDigit(c: char) { '0' <= c <= '9' }

  predicate AllDigits(s: string) { forall i :: 0 <= i < |s| ==> IsDigit(s[i]) }

  function DigitValue(c: char): nat
    requires IsDigit(c)
  {
    (c as int - '0' as int) as nat
  }

  function DigitChar(d: nat): (c: char)
    requires d < 10
    ensures IsDigit(c) && DigitValue(c) == d
  {
    ('0' as int + d) as char
  }

  /** The length of the run of decimal digits that starts `s` */
  function DigitRun(s: string): (k: nat)
    ensures k <= |s|
    ensures AllDigits(s[..k])
    ensures k < |s| ==> !IsDigit(s[k])
  {
    if s != [] && IsDigit(s[0]) then
      var k := 1 + DigitRun(s[1..]);
      assert s[..k] == [s[0]] + s[1..][..k - 1];
      k
    else 0
  }

  /** The number a string of decimal digits denotes, most significant digit first */
  function DigitsValue(ds: string): nat
    requires AllDigits(ds)
  {
    if ds == [] then 0
    else DigitsValue(ds[..|ds| - 1]) * 10 + DigitValue(ds[|ds| - 1])
  }

  /** The decimal numeral of `n`, as `String(n)` writes it */
  function DecimalString(n: nat): (s: string)
    ensures s != [] && AllDigits(s)
  {
    if n < 10 then [DigitChar(n)]
    else DecimalString(n / 10) + [DigitChar(n % 10)]
  }

  /** Truncation toward zero, which `parseInt` applies to a number's integer digits */
  function Truncate(x: real): int {
    if x >= 0.0 then x.Floor else -((-x).Floor)
  }

  /** `parseInt(s)` on a string: NaN unless the string starts with a decimal digit, and
      otherwise the value of the leading digits (leading zeros included) */
  function ParseIntString(s: string): (r: Json)
    ensures r.Num? || r.NaN?
    ensures r.NaN? <==> s == [] || !IsDigit(s[0])
    ensures r.Num? ==> 0.0 <= r.n && r.n == r.n.Floor as real
    ensures r.Num? ==> r.n == DigitsValue(s[..DigitRun(s)]) as real
  {
    var k := DigitRun(s);
    if k == 0 then NaN else Num(DigitsValue(s[..k]) as real)
  }

  /**
   Whether `String(v)` throws. A plain object is converted through its `toString` and then
   its `valueOf`; an own `toString` key of a JSON object is never a function and the
   inherited `valueOf` gives back the object, so the conversion throws exactly when the
   object has its own `toString` key. An array is converted by joining its elements, so it
   throws when an element's conversion throws. No other value throws.
   */
  predicate ConversionThrows(v: Json) {
    match v
    case Obj(m) => "toString" in m
    case Arr(xs) => exists i :: 0 <= i < |xs| && ConversionThrows(xs[i])
    case _ => false
  }

  /**
   `parseInt(v)`: the value is first converted to a string, which may throw. `String(v)` of
   undefined, null, NaN, a boolean and a plain object without its own `toString`
   ("undefined", "null", "NaN", "true"/"false", "[object Object]") starts with no digit, so
   each gives NaN; a number keeps its integer part. An array converts to its elements
   joined by commas, so only its first element can contribute digits (a null or undefined
   element converts to the empty string).
   */
  function ParseInt(v: Json): (r: Outcome<Json>)
    ensures r.Threw? <==> ConversionThrows(v)
    ensures r.Threw? ==> r.error == NoPrimitiveValue
    ensures r.Returned? ==> r.value.Num? || r.value.NaN?
    ensures v.Str? ==> r == Returned(ParseIntString(v.s))
  {
    if ConversionThrows(v) then Threw(NoPrimitiveValue)
    else
      match v
      case Str(s) => Returned(ParseIntString(s))
      case Num(x) => Returned(Num(Truncate(x) as real))
      case Arr(xs) =>
        if xs == [] || Nullish(xs[0]) then Returned(NaN) else ParseInt(xs[0])
      case _ => Returned(NaN)
  }

  /** The digits of `String(n)` are worth `n` */
  lemma {:induction false} DecimalStringValue(n: nat)
    ensures DigitsValue(DecimalString(n)) == n
  {
    var s := DecimalString(n);
    if n >= 10 {
      DecimalStringValue(n / 10);
      assert s[..|s| - 1] == DecimalString(n / 10);
    }
  }

  /** A run of digits followed by a non-digit (or by nothing) is read up to the non-digit */
  lemma {:induction false} DigitRunStops(ds: string, rest: string)
    requires AllDigits(ds)
    requires rest == [] || !IsDigit(rest[0])
    ensures DigitRun(ds + rest) == |ds|
  {
    if ds != [] {
      assert (ds + rest)[1..] == ds[1..] + rest;
      DigitRunStops(ds[1..], rest);
    } else {
      assert ds + rest == rest;
    }
  }

  /** `parseInt` reads back the decimal numeral of any natural number, also when other
      text follows it (`parseInt("42 views") == 42`) */
  lemma ParseIntReadsDecimal(n: nat, rest: string)
    requires rest == [] || !IsDigit(rest[0])
    ensures ParseInt(Str(DecimalString(n) + rest)) == Returned(Num(n as real))
  {
    var ds := DecimalString(n);
    DigitRunStops(ds, rest);
    assert (ds + rest)[..|ds|] == ds;
    DecimalStringValue(n);
  }
}
