/**
 * Scalar conversions between host numbers and Rust integers: the range gate every
 * integer argument passes, and the reverse conversions for results.
 */
module Scalars {
  import opened Host

  /** 2^53 - 1, `Number.MAX_SAFE_INTEGER`: the largest integer a host number holds exactly. */
  const MAX_SAFE_JS_INTEGER: int := 9007199254740991

  /** `fract() == 0.0`. */
  predicate IsIntegral(x: real)
  {
    x.Floor as real == x
  }

  /** `can_convert_js_number_to_int(value, lo..=hi)`: finite, integral and inside the range. */
  predicate CanConvertJsNumberToInt(value: JsNumber, lo: real, hi: real)
  {
    value.Finite? && IsIntegral(value.value) && lo <= value.value <= hi
  }

  /** The host number holding exactly the integer n. */
  function NumberOf(n: int): JsNumber
  {
    Finite(n as real)
  }

  /** The types given full-range conversions by `full_range_integer!`. */
  datatype SmallInt = U8 | U32 | I32

  function TypeName(t: SmallInt): string
  {
    match t
    case U8 => "u8"
    case U32 => "u32"
    case I32 => "i32"
  }

  /** `T::MAX`. */
  function Max(t: SmallInt): int
  {
    match t
    case U8 => 0xFF
    case U32 => 0xFFFF_FFFF
    case I32 => 0x7FFF_FFFF
  }

  /** The values of the Rust type. */
  predicate InRange(t: SmallInt, n: int)
  {
    match t
    case U8 => 0 <= n <= 0xFF
    case U32 => 0 <= n <= 0xFFFF_FFFF
    case I32 => -0x8000_0000 <= n <= 0x7FFF_FFFF
  }

  /** `u64::convert_from`: accepts the integers 0 ..= 2^53 - 1 and nothing else. */
  function U64FromJs(value: JsNumber): (r: NeonResult<u64>)
    ensures r.Ok? <==> value.Finite? && IsIntegral(value.value) && 0.0 <= value.value <= MAX_SAFE_JS_INTEGER as real
    ensures r.Ok? ==> r.value as real == value.value && r.value <= MAX_SAFE_JS_INTEGER
    ensures r.Err? ==> r.exception == RangeError(CannotConvert(value, "u64"))
  {
    if !CanConvertJsNumberToInt(value, 0.0, MAX_SAFE_JS_INTEGER as real) then
      Err(RangeError(CannotConvert(value, "u64")))
    else
      Ok(value.value.Floor)
  }

  /** `convert_from` for u8, u32 and i32: accepts the integers 0 ..= `T::MAX`, so a
      negative number is refused even for i32. */
  function IntegerFromJs(t: SmallInt, value: JsNumber): (r: NeonResult<int>)
    ensures r.Ok? <==> value.Finite? && IsIntegral(value.value) && 0.0 <= value.value <= Max(t) as real
    ensures r.Ok? ==> r.value as real == value.value && 0 <= r.value <= Max(t) && InRange(t, r.value)
    ensures r.Err? ==> r.exception == RangeError(CannotConvert(value, TypeName(t)))
  {
    if !CanConvertJsNumberToInt(value, 0.0, Max(t) as real) then
      Err(RangeError(CannotConvert(value, TypeName(t))))
    else
      Ok(value.value.Floor)
  }

  /** `u64::convert_into`. The cast to f64 rounds, but rounding is monotone and 2^53 is
      exact, so the cast exceeds 2^53 - 1 exactly when the integer does. */
  function U64IntoJs(n: u64): (r: NeonResult<JsNumber>)
    ensures r.Err? <==> n > MAX_SAFE_JS_INTEGER
    ensures r.Ok? ==> r.value == Finite(n as real)
    ensures r.Err? ==> r.exception == RangeError(PrecisionLoss(n))
  {
    if n > MAX_SAFE_JS_INTEGER then Err(RangeError(PrecisionLoss(n))) else Ok(Finite(n as real))
  }

  /** `convert_into` for u8, u32 and i32: every value is exact as a host number. */
  function IntegerIntoJs(t: SmallInt, n: int): (r: NeonResult<JsNumber>)
    requires InRange(t, n)
    ensures r.Ok? && r.value.Finite? && r.value.value == n as real
  {
    Ok(Finite(n as real))
  }

  /** An integer argument is accepted exactly when the host number is one of the
      integers 0 ..= `T::MAX`, and it converts to that integer. */
  lemma {:induction false} IntegerArgumentIsExactlyInRange(t: SmallInt, value: JsNumber)
    ensures IntegerFromJs(t, value).Ok? <==> exists n: int :: 0 <= n <= Max(t) && value == NumberOf(n)
  {
    if IntegerFromJs(t, value).Ok? {
      var n := IntegerFromJs(t, value).value;
      assert 0 <= n <= Max(t) && value == NumberOf(n);
    }
  }

  /** The same for u64, with 2^53 - 1 as the bound. */
  lemma {:induction false} U64ArgumentIsExactlyInRange(value: JsNumber)
    ensures U64FromJs(value).Ok? <==> exists n: int :: 0 <= n <= MAX_SAFE_JS_INTEGER && value == NumberOf(n)
  {
    if U64FromJs(value).Ok? {
      var n := U64FromJs(value).value;
      assert 0 <= n <= MAX_SAFE_JS_INTEGER && value == NumberOf(n);
    }
  }

  /** A u64 result comes back as the same argument exactly on 0 ..= 2^53 - 1. */
  lemma U64ResultRoundTrip(n: u64)
    ensures U64IntoJs(n).Ok? && U64FromJs(U64IntoJs(n).value) == Ok(n) <==> n <= MAX_SAFE_JS_INTEGER
  {
  }

  /** An accepted u64 argument returned as a result gives back the same host number. */
  lemma U64ArgumentRoundTrip(value: JsNumber)
    requires U64FromJs(value).Ok?
    ensures U64IntoJs(U64FromJs(value).value) == Ok(value)
  {
  }

  /** A u8, u32 or i32 result comes back as the same argument exactly when it is not
      negative: every u8 and u32, and the non-negative i32 values. */
  lemma IntegerResultRoundTrip(t: SmallInt, n: int)
    requires InRange(t, n)
    ensures IntegerFromJs(t, IntegerIntoJs(t, n).value) == Ok(n) <==> n >= 0
  {
  }

  /** An accepted u8, u32 or i32 argument returned as a result gives back the same number. */
  lemma IntegerArgumentRoundTrip(t: SmallInt, value: JsNumber)
    requires IntegerFromJs(t, value).Ok?
    ensures IntegerIntoJs(t, IntegerFromJs(t, value).value) == Ok(value)
  {
  }
}
