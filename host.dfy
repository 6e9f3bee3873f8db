/**
 * An abstract model of the JavaScript host as seen from the Node bridge: values,
 * the exceptions a call can leave pending, GC roots held by native code, and the
 * log that warnings and errors are appended to.
 */
module Host {
  import opened Cells

  type u8 = b: int | 0 <= b < 0x100
  type u32 = n: int | 0 <= n < 0x1_0000_0000
  type u64 = n: int | 0 <= n < 0x1_0000_0000_0000_0000

  /** Identifies the native Rust value held in a box. */
  type NativeId = nat

  datatype Option<T> = None | Some(value: T)

  /** A host number: finite numbers are reals; IEEE-754 rounding is not modelled. */
  datatype JsNumber = Finite(value: real) | NaN | Infinity | NegativeInfinity

  /** What a `JsBox` holds: a plain native value of the named type (`DefaultJsBox<T>`),
      or one inside a `RefCell` (`DefaultJsBox<RefCell<T>>`, handles with `mut = true`). */
  datatype BoxContent =
    | Plain(typeName: string, value: NativeId)
    | Cell(typeName: string, cell: RefCell<NativeId>)

  /** A host value. Buffers and objects have identity and can be changed by the host
      at any time; a function is an error class whose constructor either builds an
      instance or throws the given value. */
  datatype JsValue =
    | Undefined
    | Null
    | Boolean(b: bool)
    | Number(n: JsNumber)
    | Str(s: string)
    | Buffer(data: array<u8>)
    | Object(obj: JsObject)
    | Box(content: BoxContent)
    | Function(className: string, throwsOnConstruct: Option<JsValue>)
    | Instance(className: string, args: seq<JsValue>)

  class JsObject {
    var props: map<string, JsValue>

    constructor (props: map<string, JsValue>)
      ensures this.props == props
    {
      this.props := props;
    }
  }

  /** The host types a handle can be downcast to. */
  datatype JsType =
    | AnyValue
    | NullType
    | NumberType
    | StringType
    | BufferType
    | ObjectType
    | BoxOf(typeName: string)
    | CellBoxOf(typeName: string)
    | FunctionType

  /** `downcast::<t>` succeeds exactly when this holds. */
  predicate IsA(v: JsValue, t: JsType)
  {
    match t
    case AnyValue => true
    case NullType => v.Null?
    case NumberType => v.Number?
    case StringType => v.Str?
    case BufferType => v.Buffer?
    case ObjectType => v.Object?
    case BoxOf(name) => v.Box? && v.content.Plain? && v.content.typeName == name
    case CellBoxOf(name) => v.Box? && v.content.Cell? && v.content.typeName == name
    case FunctionType => v.Function?
  }

  /** Property lookup: a missing property, or any property of a non-object, reads as
      `undefined`. */
  function Get(v: JsValue, key: string): JsValue
    reads if v.Object? then {v.obj} else {}
  {
    if v.Object? && key in v.obj.props then v.obj.props[key] else Undefined
  }

  /** The message of an exception, kept as its parts: the text Rust's formatting would
      produce from them is not modelled. */
  datatype Message =
    | CannotConvert(value: JsNumber, target: string)
    | PrecisionLoss(integer: nat)
    | DowncastFailed(expected: JsType)
    | NotEnoughArguments
    | Text(text: string)

  /** The exception a failed call leaves pending in the host. */
  datatype Exception =
    | RangeError(msg: Message)
    | TypeError(msg: Message)
    | Error(msg: Message)
    | Thrown(value: JsValue)

  /** `NeonResult<T>`: a value, or a pending host exception. */
  datatype NeonResult<T> = Ok(value: T) | Err(exception: Exception)

  /** A Rust panic is not a host exception: the call unwinds. */
  datatype Unwind<T> = Returns(value: T) | Panics(message: string)

  /** `downcast_or_throw::<t>`. */
  function Downcast(v: JsValue, t: JsType): (r: NeonResult<JsValue>)
    ensures r.Ok? <==> IsA(v, t)
    ensures r.Ok? ==> r.value == v
    ensures r.Err? ==> r.exception == TypeError(DowncastFailed(t))
  {
    if IsA(v, t) then Ok(v) else Err(TypeError(DowncastFailed(t)))
  }

  datatype Level = Warn | LogError

  datatype LogMessage =
    | CouldNotConstruct(name: string, failure: Exception)
    | BufferModifiedWhileInUse

  datatype LogRecord = LogRecord(level: Level, message: LogMessage)

  /** The host execution context: the GC roots native code holds, the log, whether the
      logger has debug level enabled, and the hash function behind every checksum
      (`DefaultHasher`, whose internals are not modelled). */
  class Context {
    var roots: multiset<object>
    var log: seq<LogRecord>
    var debugLogging: bool
    const hasher: seq<u8> -> u64

    constructor (debugLogging: bool, hasher: seq<u8> -> u64)
      ensures roots == multiset{} && log == []
      ensures this.debugLogging == debugLogging && this.hasher == hasher
    {
      roots := multiset{};
      log := [];
      this.debugLogging := debugLogging;
      this.hasher := hasher;
    }

    /** `handle.root(cx)`: the object can no longer be collected. */
    method AddRoot(o: object)
      modifies this`roots
      ensures roots == old(roots) + multiset{o}
    {
      roots := roots + multiset{o};
    }

    /** `Root::finalize`: gives up one root on the object. */
    method ReleaseRoot(o: object)
      requires o in roots
      modifies this`roots
      ensures roots == old(roots) - multiset{o}
    {
      roots := roots - multiset{o};
    }

    method Append(level: Level, message: LogMessage)
      modifies this`log
      ensures log == old(log) + [LogRecord(level, message)]
    {
      log := log + [LogRecord(level, message)];
    }
  }
}
