# Node bridge conversions and error dispatch, in Dafny

This project models the Node.js side of libsignal's Rust bridge:

- **Argument conversion** (`ArgTypeInfo`). Each host value is borrowed into local storage, loaded once as a Rust value, and dropped when the call ends.
- **Asynchronous argument conversion** (`AsyncArgTypeInfo`). Each host value is saved with GC roots, loaded, and finalized in a later host context.
- **Result conversion** (`ResultTypeInfo`).
- **Error dispatch** (`SignalNodeError`). It maps native errors to host exceptions through the `Errors` registry installed on the module object.

The Neon runtime is replaced by a small host model (module `Host`):

- `JsValue` covers numbers, strings, buffers (arrays, so they can be mutated behind a borrow), objects (a class with a property map), boxes, functions and constructed instances.
- `Context` carries the GC root multiset, the log, the debug-logging switch and the hasher.
- Host exceptions are structured `RangeError` / `TypeError` / `Error` / `Thrown` values.
- Rust panics are a separate outcome, `Unwind.Panics`.

Host numbers are reals plus `NaN` and the two infinities. The checksum hasher is an uninterpreted function of the hashed bytes. The Rust traits over argument types become one closed datatype, `Args.ArgKind`, with `OptionArg(element)` as the generic `Option<T>` adapter.

Modules:

- `Cells`: the `RefCell` borrow flag behind `mut = true` bridge handles, and a trace model proving that borrows never conflict.
- `Host`: the host value, object, context and exception model.
- `Scalars`: the integer range gate, plus the u64, u8, u32 and i32 argument and result conversions.
- `Checksum`: the buffer checksum and the bytes it covers.
- `Buffers`: `AssumedImmutableBuffer` and `PersistentAssumedImmutableBuffer`.
- `Slots`: the load-once `Option` storage.
- `Handles`: `PersistentBoxedValue` and the `_nativeHandle` lookup.
- `Args`: the synchronous and asynchronous argument protocols for every kind, including the `Option` adapter and `FinalizableOption`.
- `Results`: `ResultTypeInfo`, `Env::buffer` and `AsyncEnv::buffer`.
- `Errors`: the registry, `new_js_error`, the `throw` implementations and callback errors.

## Model

| member | source | states |
|---|---|---|
| Scalars.U64FromJs | rust/bridge/shared/src/node/convert.rs:212-231 | A u64 argument is accepted exactly when the number is finite, integral and in 0 ..= 2^53-1. The result equals the number. Otherwise the call throws a RangeError "cannot convert {value} to u64". |
| Scalars.IntegerFromJs | rust/bridge/shared/src/node/convert.rs:586-606 | A u8, u32 or i32 argument is accepted exactly when the number is finite, integral and in 0 ..= T::MAX, so even i32 rejects negatives. Otherwise the call throws a RangeError naming the type. |
| Scalars.U64ArgumentIsExactlyInRange | rust/bridge/shared/src/node/convert.rs:212-231 | A u64 argument is accepted iff the host number is some integer n with 0 <= n <= 2^53-1. |
| Scalars.IntegerArgumentIsExactlyInRange | rust/bridge/shared/src/node/convert.rs:586-606 | A u8, u32 or i32 argument is accepted iff the host number is some integer n with 0 <= n <= T::MAX. |
| Scalars.U64IntoJs | rust/bridge/shared/src/node/convert.rs:507-522 | A u64 result throws a "precision loss" RangeError exactly when it exceeds 2^53-1. Otherwise it is the same number. |
| Scalars.IntegerIntoJs | rust/bridge/shared/src/node/convert.rs:607-621 | A u8, u32 or i32 result never fails and is the same number. |
| Scalars.U64ResultRoundTrip | rust/bridge/shared/src/node/convert.rs:210-231 | A u64 result read back as a u64 argument gives the same value iff it is at most 2^53-1. |
| Scalars.U64ArgumentRoundTrip | rust/bridge/shared/src/node/convert.rs:210-231 | An accepted u64 argument, returned as a result, is the same host number. |
| Scalars.IntegerResultRoundTrip | rust/bridge/shared/src/node/convert.rs:586-621 | A u8, u32 or i32 result reads back as the same argument iff it is non-negative. Negative i32 results cannot be passed back in. |
| Scalars.IntegerArgumentRoundTrip | rust/bridge/shared/src/node/convert.rs:586-621 | An accepted integer argument, returned as a result, is the same host number. |
| Checksum.HashedBytes | rust/bridge/shared/src/node/convert.rs:303-316 | The hashed bytes are a prefix of the buffer. The whole buffer is hashed when debug logging is on or it is shorter than 1024 bytes; otherwise exactly 1024 bytes are hashed. |
| Checksum.SameInputIffCoveredBytesAgree | rust/bridge/shared/src/node/convert.rs:303-316 | For equal-length buffers, the hasher sees the same input iff the buffers agree on every covered byte. |
| Checksum.ChangesPastLimitAreInvisible | rust/bridge/shared/src/node/convert.rs:303-316 | Without debug logging, equal-length buffers of at least 1024 bytes that agree on the first 1024 bytes have equal checksums, whatever the hasher. |
| Checksum.DebugLoggingCoversEverything | rust/bridge/shared/src/node/convert.rs:303-316 | With debug logging, every byte of the buffer is hashed. |
| Buffers.AssumedImmutableBuffer.constructor | rust/bridge/shared/src/node/convert.rs:324-345 | The guard views the buffer's bytes (an empty buffer gives the empty slice) and stores their checksum under the current debug setting. |
| Buffers.AssumedImmutableBuffer.Drop | rust/bridge/shared/src/node/convert.rs:347-354 | On drop, "buffer modified while in use" is logged iff the recomputed checksum differs, and nothing panics. An untouched buffer, or one changed only past byte 1024 without debug logging, logs nothing. |
| Buffers.PersistentAssumedImmutableBuffer.constructor | rust/bridge/shared/src/node/convert.rs:385-413 | The buffer is rooted, and the pointer/length pair reads its bytes (null for an empty buffer) under the stored checksum. |
| Buffers.PersistentAssumedImmutableBuffer.Deref | rust/bridge/shared/src/node/convert.rs:416-426 | The bytes are read through the pointer and length; a null pointer reads as the empty slice. |
| Buffers.PersistentAssumedImmutableBuffer.Finalize | rust/bridge/shared/src/node/convert.rs:433-441 | On finalize, a modification is logged iff the checksum differs, then exactly that buffer's root is released. |
| Slots.Slot.Load | rust/bridge/shared/src/node/convert.rs:158-160 | The first load returns the stored value and empties the slot. A load of an empty slot panics with "should only be loaded once". |
| Handles.NewPersistentBoxedValue | rust/bridge/shared/src/node/convert.rs:643-657 | The constructor succeeds iff `_nativeHandle` holds a box of the expected type. On failure it throws a TypeError and creates no root. On success it roots exactly the wrapper, after every fallible step, and the handle dereferences to the value boxed in `_nativeHandle`. |
| Handles.PersistentBoxedValue.Deref | rust/bridge/shared/src/node/convert.rs:660-668 | Dereferencing gives the pointer captured at construction. It is a constant field, so later calls always see the same boxed value. |
| Handles.PersistentBoxedValue.Finalize | rust/bridge/shared/src/node/convert.rs:675-679 | Finalize releases exactly the wrapper's root. |
| Cells.RefCell.Borrow | rust/bridge/shared/src/node/convert.rs:740-755 | A shared borrow is granted iff no exclusive borrow is outstanding; if granted it adds one reader, otherwise the flag is unchanged. |
| Cells.RefCell.BorrowMut | rust/bridge/shared/src/node/convert.rs:772-783 | An exclusive borrow is granted iff no borrow at all is outstanding; if granted it marks the cell as written. |
| Cells.GrantedIffNoConflict | rust/bridge/shared/src/node/convert.rs:731-790 | On a flag that agrees with the borrows held: exclusive is granted iff nothing is held, and shared is granted iff no exclusive borrow is held. |
| Cells.BorrowsNeverConflict | rust/bridge/shared/src/node/convert.rs:731-790 | Over any sequence of borrow and release attempts, at most one exclusive borrow is held, never together with a shared one, and the flag keeps agreeing with what is held. |
| Args.BorrowVerdict | rust/bridge/shared/src/node/convert.rs:242-261 | For the Option adapter, null is accepted and a non-null value of the wrong type is a TypeError. Only `mut = true` handle kinds can panic. |
| Args.Borrow | rust/bridge/shared/src/node/convert.rs:146-161 | `borrow` (also covering lines 223-239, 242-261, 357-369, 686-693 and 731-790) succeeds, throws or panics as BorrowVerdict says. On success the storage holds the converted value, and the handle's cell carries the new shared or exclusive borrow; otherwise no cell changes. |
| Args.VerdictMatchesConversion | rust/bridge/shared/src/node/convert.rs:242-261 | The borrow throws exactly the exception the plain conversion throws. A plain kind whose conversion succeeds is accepted. A cell-backed handle whose conversion succeeds is accepted iff its cell grants the borrow, and otherwise panics with that borrow's refusal message. |
| Args.Load | rust/bridge/shared/src/node/convert.rs:258-260 | `load_from` returns what the storage specifies and empties every load-once slot it used. |
| Args.LoadAfterBorrow | rust/bridge/shared/src/node/convert.rs:146-161 | Borrowing and then loading yields exactly the converted value (the Option adapter gives None for null and Some(element) otherwise). Buffers give their bytes. |
| Args.LoadedOnlyOnce | rust/bridge/shared/src/node/convert.rs:158-160 | Storage whose slots have been emptied panics with "should only be loaded once" on any further load. |
| Args.Drop | rust/bridge/shared/src/node/convert.rs:347-354 | Dropping the storage logs one record per guard whose checksum changed. It gives back exactly the shared or exclusive borrow it held. |
| Args.UntouchedBorrowLogsNothing | rust/bridge/shared/src/node/convert.rs:347-354 | Dropping storage whose buffer is unchanged, under the same debug setting, logs nothing. |
| Args.Save | rust/bridge/shared/src/node/convert.rs:279-296 | `save_async_arg` (also lines 163-176, 445-452 and 715-722) succeeds or throws exactly as the synchronous borrow would, and never panics. It leaves what the argument converts to unchanged. On success it roots the buffer or the wrapper; on failure the roots are unchanged. |
| Args.LoadAsync | rust/bridge/shared/src/node/convert.rs:298-300 | `load_async_arg` returns what the persisted storage specifies and empties its load-once slot. |
| Args.LoadAfterSave | rust/bridge/shared/src/node/convert.rs:163-180 | Saving and then loading yields exactly the converted value, as on the synchronous path. |
| Args.Finalize | rust/bridge/shared/src/node/convert.rs:268-276 | `FinalizableOption` finalizes its contents iff present. Every root the storage holds is released, and a changed persisted buffer is logged. |
| Args.SavedStorageReadyToFinalize | rust/bridge/shared/src/node/convert.rs:268-301 | Freshly saved storage is not yet finalized. The roots it holds are exactly the buffer or wrapper the save rooted. Finalizing it untouched, under the same debug setting, logs nothing. |
| Args.LoadThenFinalize | rust/bridge/shared/src/node/convert.rs:268-301 | Loading and then finalizing the same storage loads what the storage specified before, releases exactly its roots, and logs what finalizing it would have logged. Loading does not disturb finalizing. |
| Args.LoadThenFinalizeSaved | rust/bridge/shared/src/node/convert.rs:163-180 | On freshly saved storage, the load gives the converted value. Finalizing then releases exactly the roots the save added and logs nothing. |
| Args.SaveLoadFinalize | rust/bridge/shared/src/node/convert.rs:268-301 | The whole life of an async argument, as lines 434-441 and 675-679 also drive it. It fails iff the conversion fails, with the same exception. Otherwise the load gives the converted value. Afterwards the root set and the log are exactly as they were before the save. |
| Results.ConvertInto | rust/bridge/shared/src/node/convert.rs:500-584 | `convert_into` throws exactly for a u64 above 2^53-1, a byte vector longer than u32::MAX, or an `Err` passed through. Otherwise the host value represents the result: None becomes null, bytes become a buffer holding them, `()` becomes undefined. A result carrying bytes always gets a freshly allocated buffer. |
| Results.CopyFromSlice | rust/bridge/shared/src/node/convert.rs:556-559 | The fresh buffer ends up holding exactly the source bytes. |
| Results.NewBuffer | rust/bridge/shared/src/node/convert.rs:549-562 | A byte result fails with "Cannot return very large object to JS environment" iff it is longer than u32::MAX; otherwise it is a fresh buffer holding the bytes. |
| Results.EnvBuffer | rust/bridge/shared/src/node/convert.rs:812-826 | `Env::buffer` fails with "buffer too large to return to JavaScript" iff the input is longer than u32::MAX; otherwise it is a fresh buffer holding the input. |
| Results.AsyncEnvBuffer | rust/bridge/shared/src/node/convert.rs:831-837 | The async buffer is an owned copy of the input, with no length limit. |
| Results.ResultReadsBackAsArgument | rust/bridge/shared/src/node/convert.rs:500-621 | A returned u64 (up to 2^53-1), non-negative integer, string, byte vector or single Option passes back in as the same Rust argument. Such a result always has an argument counterpart. |
| Results.NestedNoneReadsBackAsNone | rust/bridge/shared/src/node/convert.rs:538-547 | `Some(None)` of a nested Option is returned as null, and null reads back as the outer None. |
| Errors.RegisterErrorClasses | rust/bridge/shared/src/node/error.rs:11-20 | The first argument is stored under `Errors` on the receiver. A missing or non-object argument throws a TypeError and changes nothing. |
| Errors.Construct | rust/bridge/shared/src/node/error.rs:29-34 | Construction succeeds iff `Errors` is an object whose property `name` is a function that does not throw; the result is an instance of that class with the given arguments. A missing or non-function class is a failed downcast to a function; a throwing constructor fails with what it threw. |
| Errors.NewJsError | rust/bridge/shared/src/node/error.rs:22-49 | `new_js_error` returns the instance with no warning, or logs exactly one "could not construct" warning carrying the caught failure and returns None. It never propagates. |
| Errors.Throw | rust/bridge/shared/src/node/error.rs:59-120 | A pending throw passes through unchanged. Device-transfer and crypto errors become a generic Error with their text. A protocol error is either a generic Error with its text or an instance of its dedicated class; dedicated classes exist only for UntrustedIdentity and SealedSenderSelfSend. When the dedicated class constructs, its instance is thrown and nothing is logged. When construction fails, the generic Error is thrown and one warning records the class name and the failure. |
| Errors.UntrustedIdentityUsesRegisteredClass | rust/bridge/shared/src/node/error.rs:77-87 | With a constructible `UntrustedIdentityError` class registered, an untrusted identity throws an instance of it built from the address name, with no warning. |
| Errors.UnregisteredFallsBack | rust/bridge/shared/src/node/error.rs:22-49 | Without a registry, both specialised errors throw the generic Error and log that the class could not be constructed. |
| Errors.ThrowingConstructorFallsBack | rust/bridge/shared/src/node/error.rs:88-98 | A throwing `SealedSenderSelfSend` constructor is caught. The generic Error is thrown instead, and the warning carries what the constructor threw. |
| Errors.CallbackErrorText | rust/bridge/shared/src/node/error.rs:134-138 | A callback error displays as "callback error " followed by its message. |
| Errors.CallbackErrorTextInjective | rust/bridge/shared/src/node/error.rs:134-138 | Two callback errors display the same iff they are equal. |
| Errors.JsErrorToRust | rust/bridge/shared/src/node/error.rs:140-145 | `js_error_to_rust` gives an application callback error of the named callback whose text carries the host message. |

## Left out

- The `store!` implementations for the five `Node*Store` types. Those types are not part of this model.
- The `*mut c_void` argument implementation. It is unreachable by design.
- `return_boxed_object`, `DefaultJsBox` and `DefaultFinalize`, which are not part of this model.
  - Handle results are passed through as an existing host value.
  - `DefaultFinalize`'s finalize is taken to do nothing.
- `extend_lifetime`, `transmute` and the `unsafe impl Send` blocks. These are memory and thread-safety promises with no counterpart in a sequential model.
- Promise scheduling and the `bridge_fn` macro's error-path finalization, which live outside these files.
- The `node_register!` plumbing and the `paste!` TypeScript doc attributes.
- IEEE-754 arithmetic.
  - Host numbers are exact reals, so the u64-to-f64 rounding is stated only through the 2^53-1 rule.
  - Exception messages are structured values; Rust's `Display` formatting of an `f64` is not rendered.
- `DefaultHasher` is an uninterpreted function of the bytes it is given, and `log_enabled!(Debug)` is the context's debug-logging flag.
- Errors.Throw: the `Display` text of a `SignalProtocolError` is a function parameter, because the protocol library is not part of this model.
  - The device-transfer and crypto errors carry their text as data.
  - The "(could not print error)" branch of `new_js_error` is not modelled: a caught failure is logged as the failure value itself.
- Errors.RegisterErrorClasses: a property setter that throws is not modelled. Objects are plain property maps, and `Downcast` to an object accepts only plain objects.
- Results.NewBuffer: `cx.buffer` allocation failure inside Neon is not modelled.
- Args.Load and Args.LoadAsync: a loaded slice is given as the buffer's contents at load time, not as a live view that later writes would show through.
- Host strings are Dafny strings.
  - A string argument is the host string unchanged.
  - `String::convert_from`'s UTF-16 to UTF-8 conversion is not representable (convert.rs:234-239), and neither is the replacement of unpaired surrogates in it.
- `Cells` models the standard library's `RefCell` borrow counter rather than its source, with no overflow of the reader count.
