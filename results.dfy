/**
 * The result conversions (`ResultTypeInfo`) and the byte-buffer constructors of the two
 * `Env` implementations.
 */
module Results {
  import opened Host
  import opened Scalars
  import opened Args

  const U32_MAX: int := 0xFFFF_FFFF
  const VERY_LARGE_OBJECT: string := "Cannot return very large object to JS environment"
  const BUFFER_TOO_LARGE: string := "buffer too large to return to JavaScript"

  /** The Rust results the bridge returns to the host. */
  datatype RustValue =
    | BoolResult(b: bool)
    | U64Result(n: u64)
    | IntegerResult(t: SmallInt, i: int)
    | StringResult(s: string)
    | UnitResult
    | OptionResult(o: Option<RustValue>)
    | BytesResult(bytes: seq<u8>)
    | NeonResultOf(r: NeonResult<RustValue>)
    | HandleResult(handle: JsValue)

  /** Every integer result lies in its Rust type's range. */
  predicate WellTyped(v: RustValue)
  {
    match v
    case IntegerResult(t, i) => InRange(t, i)
    case OptionResult(Some(x)) => WellTyped(x)
    case NeonResultOf(Ok(x)) => WellTyped(x)
    case _ => true
  }

  /** The exception `convert_into` throws for v, if any: an imprecise u64, an oversized
      byte vector, or an `Err` passed through. */
  function ResultError(v: RustValue): Option<Exception>
  {
    match v
    case U64Result(n) => if n > MAX_SAFE_JS_INTEGER then Some(RangeError(PrecisionLoss(n))) else None
    case BytesResult(bytes) => if |bytes| > U32_MAX then Some(Error(Text(VERY_LARGE_OBJECT))) else None
    case OptionResult(Some(x)) => ResultError(x)
    case NeonResultOf(Err(e)) => Some(e)
    case NeonResultOf(Ok(x)) => ResultError(x)
    case _ => None
  }

  /** js is the host value a successful `convert_into` produces for v. */
  ghost predicate Represents(js: JsValue, v: RustValue)
    reads if js.Buffer? then {js.data} else {}
  {
    match v
    case BoolResult(b) => js == Boolean(b)
    case U64Result(n) => js == Number(Finite(n as real))
    case IntegerResult(_, i) => js == Number(Finite(i as real))
    case StringResult(s) => js == Str(s)
    case UnitResult => js == Undefined
    case OptionResult(None) => js == Null
    case OptionResult(Some(x)) => Represents(js, x)
    case BytesResult(bytes) => js.Buffer? && js.data[..] == bytes
    case NeonResultOf(Ok(x)) => Represents(js, x)
    case NeonResultOf(Err(_)) => false
    case HandleResult(h) => js == h
  }

  /** `copy_from_slice`: fills dst, which must be exactly as long, with src. */
  method CopyFromSlice(dst: array<u8>, src: seq<u8>)
    requires dst.Length == |src|
    modifies dst
    ensures dst[..] == src
  {
    var i := 0;
    while i < dst.Length
      invariant 0 <= i <= dst.Length
      invariant dst[..i] == src[..i]
    {
      dst[i] := src[i];
      i := i + 1;
    }
  }

  /** A fresh host buffer holding bytes, or the given error when the length does not fit
      in a u32. Shared by `Vec<u8>::convert_into` and `Env::buffer`. */
  method NewBuffer(bytes: seq<u8>, tooLarge: string) returns (r: NeonResult<JsValue>)
    ensures r.Err? <==> |bytes| > U32_MAX
    ensures r.Err? ==> r.exception == Error(Text(tooLarge))
    ensures r.Ok? ==> r.value.Buffer? && fresh(r.value.data) && r.value.data[..] == bytes
  {
    if |bytes| > U32_MAX {
      return Err(Error(Text(tooLarge)));
    }
    var buffer := new u8[|bytes|];
    CopyFromSlice(buffer, bytes);
    r := Ok(Buffer(buffer));
  }

  /** v is returned as a byte vector, directly or inside `Some` or `Ok`. */
  predicate ProducesBuffer(v: RustValue)
  {
    match v
    case BytesResult(_) => true
    case OptionResult(Some(x)) => ProducesBuffer(x)
    case NeonResultOf(Ok(x)) => ProducesBuffer(x)
    case _ => false
  }

  /** `ResultTypeInfo::convert_into`: it throws exactly ResultError(v), and otherwise
      returns a host value that represents v. */
  method ConvertInto(v: RustValue) returns (r: NeonResult<JsValue>)
    requires WellTyped(v)
    ensures r.Err? <==> ResultError(v).Some?
    ensures r.Err? ==> r.exception == ResultError(v).value
    ensures r.Ok? ==> Represents(r.value, v)
    ensures r.Ok? && ProducesBuffer(v) ==> r.value.Buffer? && fresh(r.value.data)
    decreases v
  {
    match v
    case BoolResult(b) =>
      r := Ok(Boolean(b));
    case U64Result(n) =>
      var number := U64IntoJs(n);
      if number.Err? {
        return Err(number.exception);
      }
      r := Ok(Number(number.value));
    case IntegerResult(t, i) =>
      var number := IntegerIntoJs(t, i);
      r := Ok(Number(number.value));
    case StringResult(s) =>
      r := Ok(Str(s));
    case UnitResult =>
      r := Ok(Undefined);
    case OptionResult(None) =>
      r := Ok(Null);
    case OptionResult(Some(x)) =>
      r := ConvertInto(x);
    case BytesResult(bytes) =>
      r := NewBuffer(bytes, VERY_LARGE_OBJECT);
    case NeonResultOf(Err(e)) =>
      r := Err(e);
    case NeonResultOf(Ok(x)) =>
      r := ConvertInto(x);
    case HandleResult(h) =>
      r := Ok(h);
  }

  /** `Env::buffer` for a synchronous call: a fresh host buffer, or a generic error when
      the length does not fit in a u32. */
  method EnvBuffer(input: seq<u8>) returns (r: NeonResult<JsValue>)
    ensures r.Err? <==> |input| > U32_MAX
    ensures r.Err? ==> r.exception == Error(Text(BUFFER_TOO_LARGE))
    ensures r.Ok? ==> r.value.Buffer? && fresh(r.value.data) && r.value.data[..] == input
  {
    r := NewBuffer(input, BUFFER_TOO_LARGE);
  }

  /** `AsyncEnv::buffer`: an owned copy of the bytes, with no length limit. */
  function AsyncEnvBuffer(input: seq<u8>): (r: seq<u8>)
    ensures |r| == |input| && forall i :: 0 <= i < |input| ==> r[i] == input[i]
  {
    input
  }

  /** The argument kind that reads v back, when there is one. */
  predicate ReadsBack(v: RustValue, kind: ArgKind)
  {
    match v
    case U64Result(_) => kind == U64Arg
    case IntegerResult(t, i) => kind == IntegerArg(t) && i >= 0
    case StringResult(_) => kind == StringArg
    case BytesResult(_) => kind == BytesArg
    case OptionResult(None) => kind.OptionArg?
    case OptionResult(Some(x)) => kind.OptionArg? && !x.OptionResult? && ReadsBack(x, kind.element)
    case _ => false
  }

  /** The Rust argument the value reads back as, for the values an argument kind can
      read: numbers, strings, byte vectors and options of them. */
  function NativeOf(v: RustValue): Option<Native>
  {
    match v
    case U64Result(n) => Some(IntValue(n))
    case IntegerResult(_, i) => Some(IntValue(i))
    case StringResult(s) => Some(StringValue(s))
    case BytesResult(bytes) => Some(SliceValue(bytes))
    case OptionResult(None) => Some(OptionValue(None))
    case OptionResult(Some(x)) =>
      if NativeOf(x).Some? then Some(OptionValue(Some(NativeOf(x).value))) else None
    case _ => None
  }

  /** A returned value passed back in as an argument of the matching kind converts to
      the same Rust value: result and argument conversions are inverse on u64 up to
      2^53 - 1, non-negative u8/u32/i32, strings, byte vectors and single options. */
  lemma {:induction false} ResultReadsBackAsArgument(v: RustValue, kind: ArgKind, js: JsValue)
    requires WellTyped(v) && ResultError(v).None? && ReadsBack(v, kind) && Represents(js, v)
    ensures IsA(js, ArgType(kind))
    ensures NativeOf(v).Some? && Converted(kind, js) == Ok(NativeOf(v).value)
    decreases v
  {
    match v
    case U64Result(n) =>
      U64ResultRoundTrip(n);
    case IntegerResult(t, i) =>
      IntegerResultRoundTrip(t, i);
    case OptionResult(Some(x)) =>
      ResultReadsBackAsArgument(x, kind.element, js);
      assert js != Null by {
        match x
        case U64Result(_) =>
        case IntegerResult(_, _) =>
        case StringResult(_) =>
        case BytesResult(_) =>
      }
    case _ =>
  }

  /** `Option<Option<T>>` does not survive the trip: `Some(None)` is returned as `null`,
      which reads back as `None`. */
  lemma NestedNoneReadsBackAsNone()
    ensures Represents(Null, OptionResult(Some(OptionResult(None))))
    ensures Converted(OptionArg(OptionArg(U64Arg)), Null) == Ok(OptionValue(None))
  {
  }
}
