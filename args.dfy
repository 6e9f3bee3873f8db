/**
 * The argument-conversion protocols: `ArgTypeInfo` (synchronous: borrow, load once,
 * drop at the end of the call) and `AsyncArgTypeInfo` (asynchronous: save with roots,
 * load, finalize exactly once), for every argument type the bridge supports, with the
 * `Option` adapter lifting any of them over `null`.
 */
module Args {
  import opened Host
  import opened Cells
  import opened Scalars
  import opened Checksum
  import opened Buffers
  import opened Slots
  import opened Handles

  /** The Rust argument types: the trait implementations are chosen by this. */
  datatype ArgKind =
    | U64Arg
    | IntegerArg(t: SmallInt)
    | StringArg
    | BytesArg
      /** `&T` for a bridge handle declared without `mut = true`. */
    | HandleArg(typeName: string)
      /** `&T` and `&mut T` for a bridge handle declared with `mut = true`. */
    | SharedCellArg(typeName: string)
    | ExclusiveCellArg(typeName: string)
    | OptionArg(element: ArgKind)

  /** `ArgType`: the host type the call boundary has already downcast the argument to. */
  function ArgType(kind: ArgKind): JsType
  {
    match kind
    case U64Arg => NumberType
    case IntegerArg(_) => NumberType
    case StringArg => StringType
    case BytesArg => BufferType
    case HandleArg(_) => ObjectType
    case SharedCellArg(_) => ObjectType
    case ExclusiveCellArg(_) => ObjectType
    case OptionArg(_) => AnyValue
  }

  /** The kinds with an `AsyncArgTypeInfo` implementation: all but the `mut = true` borrows. */
  predicate AsyncKind(kind: ArgKind)
  {
    match kind
    case SharedCellArg(_) => false
    case ExclusiveCellArg(_) => false
    case OptionArg(element) => AsyncKind(element)
    case _ => true
  }

  /** A Rust argument as the native function receives it. */
  datatype Native =
    | IntValue(n: int)
    | StringValue(s: string)
    | SliceValue(bytes: seq<u8>)
    | RefValue(id: NativeId)
    | MutRefValue(id: NativeId)
    | OptionValue(value: Option<Native>)

  /** How a conversion ends: it succeeds, throws a host exception, or panics. */
  datatype Verdict = Accept | Reject(exception: Exception) | Panic(message: string)

  /** The objects the decision reads: the wrapper object and the cell its box holds. */
  function Footprint(foreign: JsValue): set<object>
    reads if foreign.Object? then {foreign.obj} else {}
  {
    (if foreign.Object? then {foreign.obj} else {}) + CellOf(foreign)
  }

  /** Whether `borrow` (and `save_async_arg`) succeeds, throws or panics. `null` is
      accepted by the `Option` adapter without consulting the element; any other value
      must have the element's host type, or the adapter throws a TypeError. */
  function BorrowVerdict(kind: ArgKind, foreign: JsValue): (v: Verdict)
    requires IsA(foreign, ArgType(kind))
    reads Footprint(foreign)
    ensures v.Panic? ==> !AsyncKind(kind)
    ensures kind.OptionArg? && foreign.Null? ==> v == Accept
    ensures kind.OptionArg? && !foreign.Null? && !IsA(foreign, ArgType(kind.element))
            ==> v == Reject(TypeError(DowncastFailed(ArgType(kind.element))))
    decreases kind
  {
    match kind
    case U64Arg =>
      var r := U64FromJs(foreign.n);
      if r.Ok? then Accept else Reject(r.exception)
    case IntegerArg(t) =>
      var r := IntegerFromJs(t, foreign.n);
      if r.Ok? then Accept else Reject(r.exception)
    case StringArg => Accept
    case BytesArg => Accept
    case HandleArg(name) =>
      if IsA(NativeHandle(foreign), BoxOf(name)) then Accept
      else Reject(TypeError(DowncastFailed(BoxOf(name))))
    case SharedCellArg(name) =>
      if !IsA(NativeHandle(foreign), CellBoxOf(name)) then Reject(TypeError(DowncastFailed(CellBoxOf(name))))
      else if Granted(NativeHandle(foreign).content.cell.flag, Shared) then Accept
      else Panic(RefusalMessage(Shared))
    case ExclusiveCellArg(name) =>
      if !IsA(NativeHandle(foreign), CellBoxOf(name)) then Reject(TypeError(DowncastFailed(CellBoxOf(name))))
      else if Granted(NativeHandle(foreign).content.cell.flag, Exclusive) then Accept
      else Panic(RefusalMessage(Exclusive))
    case OptionArg(element) =>
      if foreign.Null? then Accept
      else if !IsA(foreign, ArgType(element)) then Reject(TypeError(DowncastFailed(ArgType(element))))
      else BorrowVerdict(element, foreign)
  }

  /** The borrow a successful conversion takes on the wrapper's cell, if any. */
  function RequestOf(kind: ArgKind, foreign: JsValue): Option<Request>
  {
    match kind
    case SharedCellArg(_) => Some(Shared)
    case ExclusiveCellArg(_) => Some(Exclusive)
    case OptionArg(element) => if foreign.Null? then None else RequestOf(element, foreign)
    case _ => None
  }

  // ---------------------------------------------------------------------------------
  // The synchronous protocol

  /** `ArgTypeInfo::StoredType`, by argument kind. */
  datatype Stored =
      /** `Option<T>` for a `SimpleArgTypeInfo` type. */
    | SimpleStored(slot: Slot<Native>)
    | BufferStored(guard: AssumedImmutableBuffer)
      /** `Handle<DefaultJsBox<T>>`. */
    | BoxStored(value: NativeId)
      /** `(Handle<DefaultJsBox<RefCell<T>>>, Ref<T>)` and the same with `RefMut<T>`. */
    | SharedStored(cell: RefCell<NativeId>)
    | ExclusiveStored(cell: RefCell<NativeId>)
    | OptionStored(inner: Option<Stored>)

  function SlotsOf(s: Stored): set<Slot<Native>>
  {
    match s
    case SimpleStored(slot) => {slot}
    case OptionStored(Some(inner)) => SlotsOf(inner)
    case _ => {}
  }

  function GuardsOf(s: Stored): set<AssumedImmutableBuffer>
  {
    match s
    case BufferStored(guard) => {guard}
    case OptionStored(Some(inner)) => GuardsOf(inner)
    case _ => {}
  }

  /** The buffers the guards in s read. */
  function ViewsOf(s: Stored): set<object>
  {
    match s
    case BufferStored(guard) => if guard.buffer == null then {} else {guard.buffer}
    case OptionStored(Some(inner)) => ViewsOf(inner)
    case _ => {}
  }

  /** The cell borrow s holds, if any. */
  function BorrowHeld(s: Stored): Option<(RefCell<NativeId>, Request)>
  {
    match s
    case SharedStored(cell) => Some((cell, Shared))
    case ExclusiveStored(cell) => Some((cell, Exclusive))
    case OptionStored(Some(inner)) => BorrowHeld(inner)
    case _ => None
  }

  function CellsHeld(s: Stored): set<RefCell<NativeId>>
  {
    if BorrowHeld(s).Some? then {BorrowHeld(s).value.0} else {}
  }

  /** What a successful `borrow` stores for foreign. */
  ghost predicate Holds(s: Stored, kind: ArgKind, foreign: JsValue, debugLogging: bool, hasher: seq<u8> -> u64)
    requires IsA(foreign, ArgType(kind))
    reads SlotsOf(s), Footprint(foreign), if foreign.Buffer? then {foreign.data} else {}
    decreases kind
  {
    match kind
    case U64Arg =>
      U64FromJs(foreign.n).Ok? && s.SimpleStored? && s.slot.contents == Some(IntValue(U64FromJs(foreign.n).value))
    case IntegerArg(t) =>
      IntegerFromJs(t, foreign.n).Ok? && s.SimpleStored? && s.slot.contents == Some(IntValue(IntegerFromJs(t, foreign.n).value))
    case StringArg =>
      s.SimpleStored? && s.slot.contents == Some(StringValue(foreign.s))
    case BytesArg =>
      && s.BufferStored? && s.guard.Valid()
      && s.guard.buffer == (if foreign.data.Length == 0 then null else foreign.data)
      && s.guard.original == foreign.data[..]
      && s.guard.hasher == hasher && s.guard.debugAtBorrow == debugLogging
    case HandleArg(name) =>
      IsA(NativeHandle(foreign), BoxOf(name)) && s == BoxStored(NativeHandle(foreign).content.value)
    case SharedCellArg(name) =>
      IsA(NativeHandle(foreign), CellBoxOf(name)) && s == SharedStored(NativeHandle(foreign).content.cell)
    case ExclusiveCellArg(name) =>
      IsA(NativeHandle(foreign), CellBoxOf(name)) && s == ExclusiveStored(NativeHandle(foreign).content.cell)
    case OptionArg(element) =>
      && s.OptionStored?
      && (foreign.Null? ==> s.inner.None?)
      && (!foreign.Null? ==> s.inner.Some? && IsA(foreign, ArgType(element))
                             && Holds(s.inner.value, element, foreign, debugLogging, hasher))
  }

  function Outcome<T>(r: Unwind<NeonResult<T>>): Verdict
  {
    match r
    case Panics(message) => Panic(message)
    case Returns(Err(e)) => Reject(e)
    case Returns(Ok(_)) => Accept
  }

  /** `ArgTypeInfo::borrow`. It ends as BorrowVerdict says; on success the storage holds
      the converted value, and a `mut = true` handle's cell carries the new borrow. A
      `null` given to the `Option` adapter touches no cell. */
  method Borrow(cx: Context, kind: ArgKind, foreign: JsValue) returns (r: Unwind<NeonResult<Stored>>)
    requires IsA(foreign, ArgType(kind))
    requires forall c :: c in CellOf(foreign) ==> c.Valid()
    modifies CellOf(foreign)
    ensures Outcome(r) == old(BorrowVerdict(kind, foreign))
    ensures r.Returns? && r.value.Ok? ==>
              && fresh(SlotsOf(r.value.value)) && fresh(GuardsOf(r.value.value))
              && Holds(r.value.value, kind, foreign, cx.debugLogging, cx.hasher)
    ensures forall c :: c in CellOf(foreign) ==>
              && c.Valid()
              && c.flag == (if Outcome(r) == Accept && RequestOf(kind, foreign).Some?
                            then Acquire(old(c.flag), RequestOf(kind, foreign).value) else old(c.flag))
    decreases kind
  {
    match kind
    case U64Arg =>
      var v := U64FromJs(foreign.n);
      if v.Err? {
        return Returns(Err(v.exception));
      }
      var slot := new Slot<Native>(IntValue(v.value));
      r := Returns(Ok(SimpleStored(slot)));
    case IntegerArg(t) =>
      var v := IntegerFromJs(t, foreign.n);
      if v.Err? {
        return Returns(Err(v.exception));
      }
      var slot := new Slot<Native>(IntValue(v.value));
      r := Returns(Ok(SimpleStored(slot)));
    case StringArg =>
      var slot := new Slot<Native>(StringValue(foreign.s));
      r := Returns(Ok(SimpleStored(slot)));
    case BytesArg =>
      var guard := new AssumedImmutableBuffer(cx, foreign.data);
      r := Returns(Ok(BufferStored(guard)));
    case HandleArg(name) =>
      var boxed := Downcast(NativeHandle(foreign), BoxOf(name));
      if boxed.Err? {
        return Returns(Err(boxed.exception));
      }
      r := Returns(Ok(BoxStored(boxed.value.content.value)));
    case SharedCellArg(name) =>
      var boxed := Downcast(NativeHandle(foreign), CellBoxOf(name));
      if boxed.Err? {
        return Returns(Err(boxed.exception));
      }
      var cell := boxed.value.content.cell;
      var granted := cell.Borrow();
      if !granted {
        return Panics(RefusalMessage(Shared));
      }
      r := Returns(Ok(SharedStored(cell)));
    case ExclusiveCellArg(name) =>
      var boxed := Downcast(NativeHandle(foreign), CellBoxOf(name));
      if boxed.Err? {
        return Returns(Err(boxed.exception));
      }
      var cell := boxed.value.content.cell;
      var granted := cell.BorrowMut();
      if !granted {
        return Panics(RefusalMessage(Exclusive));
      }
      r := Returns(Ok(ExclusiveStored(cell)));
    case OptionArg(element) =>
      if foreign.Null? {
        return Returns(Ok(OptionStored(None)));
      }
      var nonOptional := Downcast(foreign, ArgType(element));
      if nonOptional.Err? {
        return Returns(Err(nonOptional.exception));
      }
      var inner := Borrow(cx, element, nonOptional.value);
      match inner
      case Panics(message) =>
        r := Panics(message);
      case Returns(Err(e)) =>
        r := Returns(Err(e));
      case Returns(Ok(stored)) =>
        r := Returns(Ok(OptionStored(Some(stored))));
  }

  /** The Rust value each argument type converts foreign to (`convert_from` for the
      simple types, what `load_from` hands out for the others), or the exception that
      refuses it. It ignores the cell's borrow state, which only decides a panic. */
  function Converted(kind: ArgKind, foreign: JsValue): (r: NeonResult<Native>)
    requires IsA(foreign, ArgType(kind))
    reads Footprint(foreign), if foreign.Buffer? then {foreign.data} else {}
    decreases kind
  {
    match kind
    case U64Arg =>
      var v := U64FromJs(foreign.n);
      if v.Ok? then Ok(IntValue(v.value)) else Err(v.exception)
    case IntegerArg(t) =>
      var v := IntegerFromJs(t, foreign.n);
      if v.Ok? then Ok(IntValue(v.value)) else Err(v.exception)
    case StringArg => Ok(StringValue(foreign.s))
    case BytesArg => Ok(SliceValue(foreign.data[..]))
    case HandleArg(name) =>
      if IsA(NativeHandle(foreign), BoxOf(name)) then Ok(RefValue(NativeHandle(foreign).content.value))
      else Err(TypeError(DowncastFailed(BoxOf(name))))
    case SharedCellArg(name) =>
      if IsA(NativeHandle(foreign), CellBoxOf(name)) then Ok(RefValue(NativeHandle(foreign).content.cell.value))
      else Err(TypeError(DowncastFailed(CellBoxOf(name))))
    case ExclusiveCellArg(name) =>
      if IsA(NativeHandle(foreign), CellBoxOf(name)) then Ok(MutRefValue(NativeHandle(foreign).content.cell.value))
      else Err(TypeError(DowncastFailed(CellBoxOf(name))))
    case OptionArg(element) =>
      if foreign.Null? then Ok(OptionValue(None))
      else if !IsA(foreign, ArgType(element)) then Err(TypeError(DowncastFailed(ArgType(element))))
      else
        var inner := Converted(element, foreign);
        if inner.Ok? then Ok(OptionValue(Some(inner.value))) else Err(inner.exception)
  }

  /** The borrow throws exactly the exceptions the conversion throws, and panics only
      when the conversion itself would succeed but the cell refuses the borrow. */
  lemma {:induction false} VerdictMatchesConversion(kind: ArgKind, foreign: JsValue)
    requires IsA(foreign, ArgType(kind))
    ensures BorrowVerdict(kind, foreign).Reject? <==> Converted(kind, foreign).Err?
    ensures BorrowVerdict(kind, foreign).Reject? ==>
              BorrowVerdict(kind, foreign).exception == Converted(kind, foreign).exception
    ensures BorrowVerdict(kind, foreign).Panic? ==> RequestOf(kind, foreign).Some?
    ensures RequestOf(kind, foreign).None? && Converted(kind, foreign).Ok? ==> BorrowVerdict(kind, foreign) == Accept
    ensures RequestOf(kind, foreign).Some? && Converted(kind, foreign).Ok? ==>
              && NativeHandle(foreign).Box? && NativeHandle(foreign).content.Cell?
              && var req := RequestOf(kind, foreign).value;
                 if Granted(NativeHandle(foreign).content.cell.flag, req) then BorrowVerdict(kind, foreign) == Accept
                 else BorrowVerdict(kind, foreign) == Panic(RefusalMessage(req))
    decreases kind
  {
    if kind.OptionArg? && !foreign.Null? && IsA(foreign, ArgType(kind.element)) {
      VerdictMatchesConversion(kind.element, foreign);
    }
  }

  /** `load_from`'s result, read from the storage as it is now. */
  function LoadSpec(s: Stored): Unwind<Native>
    reads SlotsOf(s), ViewsOf(s)
  {
    match s
    case SimpleStored(slot) => if slot.contents.Some? then Returns(slot.contents.value) else Panics(LOADED_TWICE)
    case BufferStored(guard) => Returns(SliceValue(guard.Slice()))
    case BoxStored(value) => Returns(RefValue(value))
    case SharedStored(cell) => Returns(RefValue(cell.value))
    case ExclusiveStored(cell) => Returns(MutRefValue(cell.value))
    case OptionStored(None) => Returns(OptionValue(None))
    case OptionStored(Some(inner)) =>
      match LoadSpec(inner)
      case Returns(v) => Returns(OptionValue(Some(v)))
      case Panics(message) => Panics(message)
  }

  /** `ArgTypeInfo::load_from`: a simple value is taken out of its slot, so a second
      load panics; the other kinds hand out a view of what was borrowed. */
  method Load(s: Stored) returns (r: Unwind<Native>)
    modifies SlotsOf(s)
    ensures r == old(LoadSpec(s))
    ensures forall slot :: slot in SlotsOf(s) ==> slot.contents.None?
    decreases s
  {
    match s
    case SimpleStored(slot) =>
      r := slot.Load();
    case BufferStored(guard) =>
      r := Returns(SliceValue(guard.Slice()));
    case BoxStored(value) =>
      r := Returns(RefValue(value));
    case SharedStored(cell) =>
      r := Returns(RefValue(cell.value));
    case ExclusiveStored(cell) =>
      r := Returns(MutRefValue(cell.value));
    case OptionStored(None) =>
      r := Returns(OptionValue(None));
    case OptionStored(Some(inner)) =>
      var loaded := Load(inner);
      match loaded
      case Returns(v) =>
        r := Returns(OptionValue(Some(v)));
      case Panics(message) =>
        r := Panics(message);
  }

  /** Borrowing then loading yields the converted value. */
  lemma {:induction false} LoadAfterBorrow(s: Stored, kind: ArgKind, foreign: JsValue, debugLogging: bool, hasher: seq<u8> -> u64)
    requires IsA(foreign, ArgType(kind))
    requires Holds(s, kind, foreign, debugLogging, hasher)
    ensures Converted(kind, foreign).Ok?
    ensures LoadSpec(s) == Returns(Converted(kind, foreign).value)
    decreases kind
  {
    match kind
    case OptionArg(element) =>
      if !foreign.Null? {
        LoadAfterBorrow(s.inner.value, element, foreign, debugLogging, hasher);
      }
    case _ =>
  }

  /** Storage whose slots have all been emptied panics on any further load. */
  lemma {:induction false} LoadedOnlyOnce(s: Stored)
    requires SlotsOf(s) != {}
    requires forall slot :: slot in SlotsOf(s) ==> slot.contents.None?
    ensures LoadSpec(s) == Panics(LOADED_TWICE)
    decreases s
  {
    match s
    case SimpleStored(slot) =>
      assert slot in SlotsOf(s);
    case OptionStored(Some(inner)) =>
      LoadedOnlyOnce(inner);
  }

  /** What dropping s requires: intact guards and the borrows it holds still taken. */
  ghost predicate StoredValid(s: Stored)
    reads CellsHeld(s)
  {
    && (forall guard :: guard in GuardsOf(s) ==> guard.Valid())
    && (BorrowHeld(s).Some? ==>
          var (cell, req) := BorrowHeld(s).value;
          cell.Valid() && if req == Shared then cell.flag > UNUSED else cell.flag == WRITING)
  }

  /** The records dropping s logs: one per guard whose checksum no longer matches. */
  function DropLog(s: Stored, debugLogging: bool): seq<LogRecord>
    reads ViewsOf(s)
  {
    match s
    case BufferStored(guard) =>
      if guard.hash != ChecksumOf(guard.hasher, guard.Slice(), debugLogging) then [MODIFIED] else []
    case OptionStored(Some(inner)) => DropLog(inner, debugLogging)
    case _ => []
  }

  /** Dropping the storage at the end of the call: guards check their checksum (logging,
      never panicking), and the `Ref`/`RefMut` gives its borrow back. */
  method Drop(cx: Context, s: Stored)
    requires StoredValid(s)
    modifies cx`log, CellsHeld(s)
    ensures cx.log == old(cx.log) + old(DropLog(s, cx.debugLogging))
    ensures BorrowHeld(s).Some? ==>
              && BorrowHeld(s).value.0.Valid()
              && BorrowHeld(s).value.0.flag == Release(old(BorrowHeld(s).value.0.flag), BorrowHeld(s).value.1)
    decreases s
  {
    match s
    case BufferStored(guard) =>
      guard.Drop(cx);
    case SharedStored(cell) =>
      cell.ReleaseShared();
    case ExclusiveStored(cell) =>
      cell.ReleaseExclusive();
    case OptionStored(Some(inner)) =>
      Drop(cx, inner);
    case _ =>
  }

  /** A guard dropped while the buffer still holds what it held at the borrow, under the
      same logging setting, logs nothing. */
  lemma {:induction false} UntouchedBorrowLogsNothing(s: Stored, kind: ArgKind, foreign: JsValue, debugLogging: bool, hasher: seq<u8> -> u64)
    requires IsA(foreign, ArgType(kind))
    requires Holds(s, kind, foreign, debugLogging, hasher)
    ensures DropLog(s, debugLogging) == []
    decreases kind
  {
    match kind
    case BytesArg =>
      assert s.guard.Slice() == s.guard.original;
    case OptionArg(element) =>
      if !foreign.Null? {
        UntouchedBorrowLogsNothing(s.inner.value, element, foreign, debugLogging, hasher);
      }
    case _ =>
  }

  // ---------------------------------------------------------------------------------
  // The asynchronous protocol

  /** `AsyncArgTypeInfo::StoredType`, by argument kind. */
  datatype Persisted =
      /** `DefaultFinalize<Option<T>>` for a `SimpleArgTypeInfo` type. */
    | DefaultFinalize(slot: Slot<Native>)
    | PersistentBuffer(buffer: PersistentAssumedImmutableBuffer)
    | PersistentBoxed(boxed: PersistentBoxedValue)
    | FinalizableOption(inner: Option<Persisted>)

  function PersistedSlots(p: Persisted): set<Slot<Native>>
  {
    match p
    case DefaultFinalize(slot) => {slot}
    case FinalizableOption(Some(inner)) => PersistedSlots(inner)
    case _ => {}
  }

  /** The objects whose `finalized` flag finalizing p sets. */
  function Finalizable(p: Persisted): set<object>
  {
    match p
    case PersistentBuffer(buffer) => {buffer}
    case PersistentBoxed(boxed) => {boxed}
    case FinalizableOption(Some(inner)) => Finalizable(inner)
    case _ => {}
  }

  /** The buffers the persisted views read. */
  function PersistedViews(p: Persisted): set<object>
  {
    match p
    case PersistentBuffer(buffer) => if buffer.bufferStart == null then {} else {buffer.bufferStart}
    case FinalizableOption(Some(inner)) => PersistedViews(inner)
    case _ => {}
  }

  /** The GC roots p holds. */
  function RootsOf(p: Persisted): multiset<object>
  {
    match p
    case PersistentBuffer(buffer) => multiset{buffer.owner}
    case PersistentBoxed(boxed) => multiset{boxed.owner}
    case FinalizableOption(Some(inner)) => RootsOf(inner)
    case _ => multiset{}
  }

  ghost predicate PersistedValid(p: Persisted)
  {
    match p
    case PersistentBuffer(buffer) => buffer.Valid()
    case FinalizableOption(Some(inner)) => PersistedValid(inner)
    case _ => true
  }

  /** Nothing in p has been finalized yet. */
  predicate Live(p: Persisted)
    reads Finalizable(p)
  {
    match p
    case PersistentBuffer(buffer) => !buffer.finalized
    case PersistentBoxed(boxed) => !boxed.finalized
    case FinalizableOption(Some(inner)) => Live(inner)
    case _ => true
  }

  /** Everything in p has been finalized. */
  predicate Finalized(p: Persisted)
    reads Finalizable(p)
  {
    match p
    case PersistentBuffer(buffer) => buffer.finalized
    case PersistentBoxed(boxed) => boxed.finalized
    case FinalizableOption(Some(inner)) => Finalized(inner)
    case _ => true
  }

  /** What a successful `save_async_arg` persists for foreign. */
  ghost predicate Persists(p: Persisted, kind: ArgKind, foreign: JsValue, debugLogging: bool, hasher: seq<u8> -> u64)
    requires IsA(foreign, ArgType(kind))
    reads PersistedSlots(p), PersistedViews(p), Finalizable(p), Footprint(foreign)
    reads if foreign.Buffer? then {foreign.data} else {}
    decreases kind
  {
    match kind
    case U64Arg =>
      U64FromJs(foreign.n).Ok? && p.DefaultFinalize? && p.slot.contents == Some(IntValue(U64FromJs(foreign.n).value))
    case IntegerArg(t) =>
      IntegerFromJs(t, foreign.n).Ok? && p.DefaultFinalize? && p.slot.contents == Some(IntValue(IntegerFromJs(t, foreign.n).value))
    case StringArg =>
      p.DefaultFinalize? && p.slot.contents == Some(StringValue(foreign.s))
    case BytesArg =>
      && p.PersistentBuffer? && p.buffer.Valid() && !p.buffer.finalized
      && p.buffer.owner == foreign.data && p.buffer.Deref() == foreign.data[..] == p.buffer.original
      && p.buffer.hasher == hasher && p.buffer.debugAtSave == debugLogging
    case HandleArg(name) =>
      && IsA(NativeHandle(foreign), BoxOf(name)) && p.PersistentBoxed? && !p.boxed.finalized
      && p.boxed.owner == foreign.obj && p.boxed.valuePtr == NativeHandle(foreign).content.value
    case SharedCellArg(_) => false
    case ExclusiveCellArg(_) => false
    case OptionArg(element) =>
      && p.FinalizableOption?
      && (foreign.Null? ==> p.inner.None?)
      && (!foreign.Null? ==> p.inner.Some? && IsA(foreign, ArgType(element))
                             && Persists(p.inner.value, element, foreign, debugLogging, hasher))
  }

  /** `AsyncArgTypeInfo::save_async_arg`. It succeeds or throws as the synchronous borrow
      would (it never panics) and leaves what the argument converts to as it was; on
      success the buffer or the wrapper object is rooted, and on failure no root is left
      behind. */
  method Save(cx: Context, kind: ArgKind, foreign: JsValue) returns (r: NeonResult<Persisted>)
    requires AsyncKind(kind) && IsA(foreign, ArgType(kind))
    modifies cx`roots
    ensures Outcome(Returns(r)) == BorrowVerdict(kind, foreign)
    ensures Converted(kind, foreign) == old(Converted(kind, foreign))
    ensures r.Err? ==> cx.roots == old(cx.roots)
    ensures r.Ok? ==>
              && fresh(PersistedSlots(r.value)) && fresh(Finalizable(r.value))
              && Persists(r.value, kind, foreign, cx.debugLogging, cx.hasher)
              && cx.roots == old(cx.roots) + RootsOf(r.value)
    decreases kind
  {
    match kind
    case U64Arg =>
      var v := U64FromJs(foreign.n);
      if v.Err? {
        return Err(v.exception);
      }
      var slot := new Slot<Native>(IntValue(v.value));
      r := Ok(DefaultFinalize(slot));
    case IntegerArg(t) =>
      var v := IntegerFromJs(t, foreign.n);
      if v.Err? {
        return Err(v.exception);
      }
      var slot := new Slot<Native>(IntValue(v.value));
      r := Ok(DefaultFinalize(slot));
    case StringArg =>
      var slot := new Slot<Native>(StringValue(foreign.s));
      r := Ok(DefaultFinalize(slot));
    case BytesArg =>
      var buffer := new PersistentAssumedImmutableBuffer(cx, foreign.data);
      r := Ok(PersistentBuffer(buffer));
    case HandleArg(name) =>
      var boxed := NewPersistentBoxedValue(cx, foreign.obj, name);
      if boxed.Err? {
        return Err(boxed.exception);
      }
      r := Ok(PersistentBoxed(boxed.value));
    case OptionArg(element) =>
      if foreign.Null? {
        return Ok(FinalizableOption(None));
      }
      var nonOptional := Downcast(foreign, ArgType(element));
      if nonOptional.Err? {
        return Err(nonOptional.exception);
      }
      var inner := Save(cx, element, nonOptional.value);
      if inner.Err? {
        return Err(inner.exception);
      }
      r := Ok(FinalizableOption(Some(inner.value)));
  }

  /** `load_async_arg`'s result, read from the persisted storage as it is now. */
  function LoadAsyncSpec(p: Persisted): Unwind<Native>
    requires PersistedValid(p)
    reads PersistedSlots(p), PersistedViews(p)
  {
    match p
    case DefaultFinalize(slot) => if slot.contents.Some? then Returns(slot.contents.value) else Panics(LOADED_TWICE)
    case PersistentBuffer(buffer) => Returns(SliceValue(buffer.Deref()))
    case PersistentBoxed(boxed) => Returns(RefValue(boxed.Deref()))
    case FinalizableOption(None) => Returns(OptionValue(None))
    case FinalizableOption(Some(inner)) =>
      match LoadAsyncSpec(inner)
      case Returns(v) => Returns(OptionValue(Some(v)))
      case Panics(message) => Panics(message)
  }

  /** `AsyncArgTypeInfo::load_async_arg`: a simple value is taken out of its
      `DefaultFinalize`, so a second load panics; buffers and boxed values are read
      through their persisted pointers. */
  method LoadAsync(p: Persisted) returns (r: Unwind<Native>)
    requires PersistedValid(p)
    modifies PersistedSlots(p)
    ensures r == old(LoadAsyncSpec(p))
    ensures forall slot :: slot in PersistedSlots(p) ==> slot.contents.None?
    decreases p
  {
    match p
    case DefaultFinalize(slot) =>
      r := slot.Load();
    case PersistentBuffer(buffer) =>
      r := Returns(SliceValue(buffer.Deref()));
    case PersistentBoxed(boxed) =>
      r := Returns(RefValue(boxed.Deref()));
    case FinalizableOption(None) =>
      r := Returns(OptionValue(None));
    case FinalizableOption(Some(inner)) =>
      var loaded := LoadAsync(inner);
      match loaded
      case Returns(v) =>
        r := Returns(OptionValue(Some(v)));
      case Panics(message) =>
        r := Panics(message);
  }

  /** Saving then loading yields the converted value, as the synchronous path does. */
  lemma {:induction false} LoadAfterSave(p: Persisted, kind: ArgKind, foreign: JsValue, debugLogging: bool, hasher: seq<u8> -> u64)
    requires IsA(foreign, ArgType(kind))
    requires Persists(p, kind, foreign, debugLogging, hasher)
    ensures PersistedValid(p)
    ensures Converted(kind, foreign).Ok?
    ensures LoadAsyncSpec(p) == Returns(Converted(kind, foreign).value)
    decreases kind
  {
    match kind
    case OptionArg(element) =>
      if !foreign.Null? {
        LoadAfterSave(p.inner.value, element, foreign, debugLogging, hasher);
      }
    case _ =>
  }

  /** The records finalizing p logs: one per persisted buffer whose checksum no longer
      matches. */
  function FinalizeLog(p: Persisted, debugLogging: bool): seq<LogRecord>
    requires PersistedValid(p)
    reads PersistedViews(p)
  {
    match p
    case PersistentBuffer(buffer) =>
      if buffer.hash != ChecksumOf(buffer.hasher, buffer.Deref(), debugLogging) then [MODIFIED] else []
    case FinalizableOption(Some(inner)) => FinalizeLog(inner, debugLogging)
    case _ => []
  }

  /** `Finalize` for the stored types: a persisted buffer checks its checksum and releases
      its root, a boxed value releases its root, `FinalizableOption` finalizes its
      contents only when present, and `DefaultFinalize` does nothing. */
  method Finalize(cx: Context, p: Persisted)
    requires PersistedValid(p) && Live(p) && RootsOf(p) <= cx.roots
    modifies cx`log, cx`roots, Finalizable(p)
    ensures Finalized(p)
    ensures cx.roots == old(cx.roots) - RootsOf(p)
    ensures cx.log == old(cx.log) + old(FinalizeLog(p, cx.debugLogging))
    decreases p
  {
    match p
    case PersistentBuffer(buffer) =>
      buffer.Finalize(cx);
    case PersistentBoxed(boxed) =>
      boxed.Finalize(cx);
    case FinalizableOption(Some(inner)) =>
      Finalize(cx, inner);
    case _ =>
  }

  /** Freshly saved storage is ready to be finalized: nothing in it is finalized yet,
      the roots it holds are exactly the buffer or wrapper the save rooted, and an
      untouched buffer finalized under the same logging setting logs nothing. */
  lemma {:induction false} SavedStorageReadyToFinalize(p: Persisted, kind: ArgKind, foreign: JsValue, debugLogging: bool, hasher: seq<u8> -> u64)
    requires IsA(foreign, ArgType(kind))
    requires Persists(p, kind, foreign, debugLogging, hasher)
    ensures PersistedValid(p) && Live(p)
    ensures RootsOf(p) == SavedRoots(kind, foreign)
    ensures FinalizeLog(p, debugLogging) == []
    decreases kind
  {
    match kind
    case OptionArg(element) =>
      if !foreign.Null? {
        SavedStorageReadyToFinalize(p.inner.value, element, foreign, debugLogging, hasher);
      }
    case _ =>
  }

  /** Loading persisted storage and then finalizing it: the load sees the storage as
      saved, and finalizing releases its roots and logs what changed. */
  method LoadThenFinalize(cx: Context, p: Persisted) returns (r: Unwind<Native>)
    requires PersistedValid(p) && Live(p) && RootsOf(p) <= cx.roots
    modifies PersistedSlots(p), Finalizable(p), cx`roots, cx`log
    ensures r == old(LoadAsyncSpec(p))
    ensures cx.roots == old(cx.roots) - RootsOf(p)
    ensures cx.log == old(cx.log) + old(FinalizeLog(p, cx.debugLogging))
  {
    SlotsApart(p);
    r := LoadAsync(p);
    Finalize(cx, p);
  }

  /** Loading touches only slots, never what finalizing reads or writes, all of which
      already exists. */
  lemma {:induction false} SlotsApart(p: Persisted)
    ensures PersistedSlots(p) !! Finalizable(p) && PersistedSlots(p) !! PersistedViews(p)
    ensures forall o :: o in Finalizable(p) ==> allocated(o)
    ensures forall o :: o in PersistedViews(p) ==> allocated(o)
  {
    match p
    case FinalizableOption(Some(inner)) =>
      SlotsApart(inner);
    case _ =>
  }

  /** The life of an asynchronous argument as a bridged `async` function drives it: saved
      while the call runs, loaded inside the future, finalized when the promise settles.
      It fails exactly when the conversion does; otherwise the future sees the converted
      value, and afterwards the roots and the log are as they were. */
  method SaveLoadFinalize(cx: Context, kind: ArgKind, foreign: JsValue) returns (r: NeonResult<Unwind<Native>>)
    requires AsyncKind(kind) && IsA(foreign, ArgType(kind))
    modifies cx`roots, cx`log
    ensures r.Err? <==> old(Converted(kind, foreign)).Err?
    ensures r.Err? ==> r.exception == old(Converted(kind, foreign)).exception
    ensures r.Ok? ==> r.value == Returns(old(Converted(kind, foreign)).value)
    ensures cx.roots == old(cx.roots) && cx.log == old(cx.log)
  {
    var saved := Save(cx, kind, foreign);
    SaveFailsAsConversion(kind, foreign, saved);
    if saved.Err? {
      return Err(saved.exception);
    }
    var loaded := LoadThenFinalizeSaved(cx, saved.value, kind, foreign);
    r := Ok(loaded);
  }

  /** The second half of that life: storage freshly saved for foreign is loaded as the
      converted value, and finalizing it releases exactly the roots the save added and
      logs nothing. */
  method LoadThenFinalizeSaved(cx: Context, stored: Persisted, kind: ArgKind, foreign: JsValue) returns (loaded: Unwind<Native>)
    requires IsA(foreign, ArgType(kind))
    requires Persists(stored, kind, foreign, cx.debugLogging, cx.hasher)
    requires RootsOf(stored) <= cx.roots
    modifies PersistedSlots(stored), Finalizable(stored), cx`roots, cx`log
    ensures old(Converted(kind, foreign)).Ok?
    ensures loaded == Returns(old(Converted(kind, foreign)).value)
    ensures cx.roots == old(cx.roots) - RootsOf(stored) && cx.log == old(cx.log)
  {
    SavedStorageReadyToFinalize(stored, kind, foreign, cx.debugLogging, cx.hasher);
    LoadAfterSave(stored, kind, foreign, cx.debugLogging, cx.hasher);
    loaded := LoadThenFinalize(cx, stored);
  }

  /** A save whose outcome is the borrow verdict fails exactly when the conversion does,
      with the same exception. */
  lemma SaveFailsAsConversion(kind: ArgKind, foreign: JsValue, saved: NeonResult<Persisted>)
    requires IsA(foreign, ArgType(kind))
    requires Outcome(Returns(saved)) == BorrowVerdict(kind, foreign)
    ensures saved.Err? <==> Converted(kind, foreign).Err?
    ensures saved.Err? ==> saved.exception == Converted(kind, foreign).exception
  {
    VerdictMatchesConversion(kind, foreign);
  }

  /** The objects save_async_arg roots for foreign: the buffer, or the wrapper object. */
  function SavedRoots(kind: ArgKind, foreign: JsValue): multiset<object>
  {
    match kind
    case BytesArg => if foreign.Buffer? then multiset{foreign.data} else multiset{}
    case HandleArg(_) => if foreign.Object? then multiset{foreign.obj} else multiset{}
    case OptionArg(element) => if foreign.Null? then multiset{} else SavedRoots(element, foreign)
    case _ => multiset{}
  }
}
