/**
 * Native values carried by host wrapper objects: the `_nativeHandle` lookup and the
 * rooted handle an asynchronous call keeps.
 */
module Handles {
  import opened Host
  import opened Cells

  /** The property of a wrapper object that holds its box. */
  const NATIVE_HANDLE_PROPERTY: string := "_nativeHandle"

  /** `Object::get(wrapper, "_nativeHandle")`. */
  function NativeHandle(wrapper: JsValue): JsValue
    reads if wrapper.Object? then {wrapper.obj} else {}
  {
    Get(wrapper, NATIVE_HANDLE_PROPERTY)
  }

  /** The `RefCell` a wrapper's box holds, if it holds one. */
  function CellOf(wrapper: JsValue): set<RefCell<NativeId>>
    reads if wrapper.Object? then {wrapper.obj} else {}
  {
    var h := NativeHandle(wrapper);
    if h.Box? && h.content.Cell? then {h.content.cell} else {}
  }

  /** `PersistentBoxedValue`: a rooted wrapper object and the native value its box holds.
      It must be finalized, exactly once. */
  class PersistentBoxedValue {
    /** The root that keeps the wrapper, and so its box, alive. */
    const owner: JsObject
    const valuePtr: NativeId
    var finalized: bool

    constructor Init(owner: JsObject, valuePtr: NativeId)
      ensures this.owner == owner && this.valuePtr == valuePtr && !finalized
    {
      this.owner := owner;
      this.valuePtr := valuePtr;
      finalized := false;
    }

    /** `Deref`: the boxed value the pointer captured at construction (a box never
        holds null). */
    function Deref(): (v: NativeId)
      ensures v == valuePtr
    {
      valuePtr
    }

    /** `Finalize`: releases exactly the root this handle holds. */
    method Finalize(cx: Context)
      requires !finalized && owner in cx.roots
      modifies this`finalized, cx`roots
      ensures finalized && cx.roots == old(cx.roots) - multiset{owner}
    {
      cx.ReleaseRoot(owner);
      finalized := true;
    }
  }

  /** `PersistentBoxedValue::new`: looks up and downcasts the box, and only then roots
      the wrapper, so a failed lookup leaves no root behind. */
  method NewPersistentBoxedValue(cx: Context, wrapper: JsObject, typeName: string)
    returns (r: NeonResult<PersistentBoxedValue>)
    modifies cx`roots
    ensures r.Ok? <==> IsA(NativeHandle(Object(wrapper)), BoxOf(typeName))
    ensures r.Err? ==> r.exception == TypeError(DowncastFailed(BoxOf(typeName))) && cx.roots == old(cx.roots)
    ensures r.Ok? ==> && fresh(r.value) && !r.value.finalized
                      && r.value.owner == wrapper
                      && r.value.Deref() == NativeHandle(Object(wrapper)).content.value
                      && cx.roots == old(cx.roots) + multiset{wrapper}
  {
    var boxed := Downcast(NativeHandle(Object(wrapper)), BoxOf(typeName));
    if boxed.Err? {
      return Err(boxed.exception);
    }
    var valuePtr := boxed.value.content.value;
    // The root is created after every step that can fail.
    cx.AddRoot(wrapper);
    var handle := new PersistentBoxedValue.Init(wrapper, valuePtr);
    r := Ok(handle);
  }
}
