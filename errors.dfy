/**
 * Mapping native errors to host exceptions: the `Errors` registry a module installs,
 * the guarded construction of a registered error class, and the `SignalNodeError`
 * dispatch with its generic fallback.
 */
module Errors {
  import opened Host

  /** The property of the module object that holds the registry of error classes. */
  const ERRORS_PROPERTY_NAME: string := "Errors"
  const UNTRUSTED_IDENTITY_CLASS: string := "UntrustedIdentityError"
  const SEALED_SENDER_SELF_SEND_CLASS: string := "SealedSenderSelfSend"
  const CALLBACK_ERROR_PREFIX: string := "callback error "

  /** `registerErrorClasses`: stores its first argument, which must be an object, under
      `Errors` on the receiver; a missing or non-object argument throws a TypeError and
      changes nothing. */
  method RegisterErrorClasses(receiver: JsObject, args: seq<JsValue>) returns (r: NeonResult<JsValue>)
    modifies receiver
    ensures |args| == 0 ==> r == Err(TypeError(NotEnoughArguments))
    ensures |args| > 0 && !args[0].Object? ==> r == Err(TypeError(DowncastFailed(ObjectType)))
    ensures r.Err? ==> receiver.props == old(receiver.props)
    ensures r.Ok? <==> |args| > 0 && args[0].Object?
    ensures r.Ok? ==> r.value == Undefined && receiver.props == old(receiver.props)[ERRORS_PROPERTY_NAME := args[0]]
  {
    if |args| == 0 {
      return Err(TypeError(NotEnoughArguments));
    }
    var errorsModule := Downcast(args[0], ObjectType);
    if errorsModule.Err? {
      return Err(errorsModule.exception);
    }
    receiver.props := receiver.props[ERRORS_PROPERTY_NAME := errorsModule.value];
    r := Ok(Undefined);
  }

  /** The registry object module points to, if it points to one. */
  function Registry(moduleObject: JsObject): set<object>
    reads moduleObject
  {
    var errors := Get(Object(moduleObject), ERRORS_PROPERTY_NAME);
    if errors.Object? then {errors.obj} else {}
  }

  /** The steps inside `try_catch`: read `Errors`, downcast it to an object, read the
      class, downcast it to a function, construct it. Any step may throw. */
  function Construct(moduleObject: JsObject, name: string, args: seq<JsValue>): (r: NeonResult<JsValue>)
    reads moduleObject, Registry(moduleObject)
    ensures r.Ok? <==>
              var errors := Get(Object(moduleObject), ERRORS_PROPERTY_NAME);
              errors.Object? && Get(errors, name).Function? && Get(errors, name).throwsOnConstruct.None?
    ensures r.Ok? ==> r.value == Instance(Get(Get(Object(moduleObject), ERRORS_PROPERTY_NAME), name).className, args)
    ensures !Get(Object(moduleObject), ERRORS_PROPERTY_NAME).Object? ==> r == Err(TypeError(DowncastFailed(ObjectType)))
    ensures var errors := Get(Object(moduleObject), ERRORS_PROPERTY_NAME);
            errors.Object? && !Get(errors, name).Function? ==> r == Err(TypeError(DowncastFailed(FunctionType)))
    ensures var errors := Get(Object(moduleObject), ERRORS_PROPERTY_NAME);
            errors.Object? && Get(errors, name).Function? && Get(errors, name).throwsOnConstruct.Some?
            ==> r == Err(Thrown(Get(errors, name).throwsOnConstruct.value))
  {
    var errorsModule := Downcast(Get(Object(moduleObject), ERRORS_PROPERTY_NAME), ObjectType);
    if errorsModule.Err? then Err(errorsModule.exception)
    else
      var errorClass := Downcast(Get(errorsModule.value, name), FunctionType);
      if errorClass.Err? then Err(errorClass.exception)
      else
        match errorClass.value.throwsOnConstruct
        case Some(thrown) => Err(Thrown(thrown))
        case None => Ok(Instance(errorClass.value.className, args))
  }

  /** The outcome of `new_js_error`: the instance, if construction succeeded, and the
      warnings it logged. */
  datatype Attempt = Attempt(instance: Option<JsValue>, warnings: seq<LogRecord>)

  /** `new_js_error`: never propagates a failure. A constructed instance is returned with
      no warning; any failure is caught, logged once as a warning naming the class and
      the failure, and turned into `None`. */
  function NewJsError(moduleObject: JsObject, name: string, args: seq<JsValue>): (r: Attempt)
    reads moduleObject, Registry(moduleObject)
    ensures r.instance.Some? <==> Construct(moduleObject, name, args).Ok?
    ensures r.instance.Some? ==> r.instance.value == Construct(moduleObject, name, args).value && r.warnings == []
    ensures r.instance.None? ==>
              r.warnings == [LogRecord(Warn, CouldNotConstruct(name, Construct(moduleObject, name, args).exception))]
  {
    match Construct(moduleObject, name, args)
    case Ok(instance) => Attempt(Some(instance), [])
    case Err(failure) => Attempt(None, [LogRecord(Warn, CouldNotConstruct(name, failure))])
  }

  datatype ProtocolAddress = ProtocolAddress(name: string, deviceId: nat)

  /** `CallbackError`: the message a host callback failed with. */
  datatype CallbackError = CallbackError(message: string)

  /** The `SignalProtocolError` variants the dispatch distinguishes; the rest are kept
      by their description. */
  datatype ProtocolError =
    | UntrustedIdentity(address: ProtocolAddress)
    | SealedSenderSelfSend
    | ApplicationCallbackError(func: string, cause: CallbackError)
    | OtherProtocolError(variant: string)

  /** The native errors with a `SignalNodeError` implementation. The device-transfer and
      crypto errors carry their `Display` text. */
  datatype NativeError =
    | PendingThrow(pending: Exception)
    | Protocol(error: ProtocolError)
    | DeviceTransferError(text: string)
    | CryptoError(text: string)

  /** The exception `throw` leaves pending, and the warnings it logged. */
  datatype ThrowOutcome = ThrowOutcome(exception: Exception, warnings: seq<LogRecord>)

  /** The specialised class (and its constructor arguments) tried for e, if any. */
  function Specialised(e: ProtocolError, describe: ProtocolError -> string): Option<(string, seq<JsValue>)>
  {
    match e
    case UntrustedIdentity(address) => Some((UNTRUSTED_IDENTITY_CLASS, [Str(address.name)]))
    case SealedSenderSelfSend => Some((SEALED_SENDER_SELF_SEND_CLASS, [Str(describe(e))]))
    case _ => None
  }

  /** `SignalNodeError::throw`. A pending exception passes through untouched. A protocol
      error with a dedicated class throws an instance of it when the registry can build
      one; otherwise, and for every other error, a generic Error carrying the error's
      text is thrown. Only a failed construction logs, and then exactly one warning. */
  function Throw(e: NativeError, moduleObject: JsObject, describe: ProtocolError -> string): (r: ThrowOutcome)
    reads moduleObject, Registry(moduleObject)
    ensures e.PendingThrow? ==> r == ThrowOutcome(e.pending, [])
    ensures e.DeviceTransferError? || e.CryptoError? ==> r == ThrowOutcome(Error(Text(e.text)), [])
    ensures e.Protocol? ==> r.exception == Error(Text(describe(e.error))) || r.exception.Thrown?
    ensures e.Protocol? && r.exception.Thrown? ==>
              Specialised(e.error, describe).Some? && r.warnings == []
              && var (name, args) := Specialised(e.error, describe).value;
                 Construct(moduleObject, name, args) == Ok(r.exception.value)
    ensures e.Protocol? && Specialised(e.error, describe).None? ==> r == ThrowOutcome(Error(Text(describe(e.error))), [])
    ensures e.Protocol? && Specialised(e.error, describe).Some? ==>
              var (name, args) := Specialised(e.error, describe).value;
              var built := Construct(moduleObject, name, args);
              && (built.Ok? ==> r == ThrowOutcome(Thrown(built.value), []))
              && (built.Err? ==> r == ThrowOutcome(Error(Text(describe(e.error))),
                                                   [LogRecord(Warn, CouldNotConstruct(name, built.exception))]))
    ensures |r.warnings| <= 1
  {
    match e
    case PendingThrow(pending) => ThrowOutcome(pending, [])
    case Protocol(error) =>
      var generic := Error(Text(describe(error)));
      (match Specialised(error, describe)
       case None => ThrowOutcome(generic, [])
       case Some((name, args)) =>
         var attempt := NewJsError(moduleObject, name, args);
         if attempt.instance.Some? then ThrowOutcome(Thrown(attempt.instance.value), [])
         else ThrowOutcome(generic, attempt.warnings))
    case DeviceTransferError(text) => ThrowOutcome(Error(Text(text)), [])
    case CryptoError(text) => ThrowOutcome(Error(Text(text)), [])
  }

  /** With a registry holding a constructible `UntrustedIdentityError` class, an untrusted
      identity is thrown as an instance of it built from the address name, silently. */
  lemma UntrustedIdentityUsesRegisteredClass(moduleObject: JsObject, registry: JsObject, className: string,
                                             address: ProtocolAddress, describe: ProtocolError -> string)
    requires Get(Object(moduleObject), ERRORS_PROPERTY_NAME) == Object(registry)
    requires Get(Object(registry), UNTRUSTED_IDENTITY_CLASS) == Function(className, None)
    ensures Throw(Protocol(UntrustedIdentity(address)), moduleObject, describe)
            == ThrowOutcome(Thrown(Instance(className, [Str(address.name)])), [])
  {
  }

  /** Without a registry, each specialised error falls back to the generic Error and
      logs that the class could not be constructed because `Errors` is not an object. */
  lemma UnregisteredFallsBack(moduleObject: JsObject, e: ProtocolError, describe: ProtocolError -> string)
    requires Get(Object(moduleObject), ERRORS_PROPERTY_NAME) == Undefined
    requires Specialised(e, describe).Some?
    ensures Throw(Protocol(e), moduleObject, describe)
            == ThrowOutcome(Error(Text(describe(e))),
                            [LogRecord(Warn, CouldNotConstruct(Specialised(e, describe).value.0, TypeError(DowncastFailed(ObjectType))))])
  {
  }

  /** A constructor that throws is caught too: the generic Error is thrown instead, and
      the warning carries what the constructor threw. */
  lemma ThrowingConstructorFallsBack(moduleObject: JsObject, registry: JsObject, className: string, thrown: JsValue,
                                     describe: ProtocolError -> string)
    requires Get(Object(moduleObject), ERRORS_PROPERTY_NAME) == Object(registry)
    requires Get(Object(registry), SEALED_SENDER_SELF_SEND_CLASS) == Function(className, Some(thrown))
    ensures Throw(Protocol(SealedSenderSelfSend), moduleObject, describe)
            == ThrowOutcome(Error(Text(describe(SealedSenderSelfSend))),
                            [LogRecord(Warn, CouldNotConstruct(SEALED_SENDER_SELF_SEND_CLASS, Thrown(thrown)))])
  {
  }

  /** `Display` for `CallbackError`: the message behind a fixed prefix, so the message
      can be read back from the text. */
  function CallbackErrorText(e: CallbackError): (s: string)
    ensures CALLBACK_ERROR_PREFIX <= s && s[|CALLBACK_ERROR_PREFIX|..] == e.message
  {
    CALLBACK_ERROR_PREFIX + e.message
  }

  /** Distinct callback messages display differently. */
  lemma CallbackErrorTextInjective(a: CallbackError, b: CallbackError)
    ensures CallbackErrorText(a) == CallbackErrorText(b) <==> a == b
  {
    if CallbackErrorText(a) == CallbackErrorText(b) {
      assert a.message == CallbackErrorText(a)[|CALLBACK_ERROR_PREFIX|..];
    }
  }

  /** `js_error_to_rust`: wraps a host error message as an application callback error of
      the named callback, whose text is the message behind the callback prefix. */
  function JsErrorToRust(func: string, message: string): (e: ProtocolError)
    ensures e.ApplicationCallbackError? && e.func == func
    ensures CallbackErrorText(e.cause)[|CALLBACK_ERROR_PREFIX|..] == message
  {
    ApplicationCallbackError(func, CallbackError(message))
  }
}
