/**
 * The storage of an argument that needs no storage of its own (`SimpleArgTypeInfo`):
 * the converted value kept in an `Option` and taken out by the one load allowed.
 */
module Slots {
  import opened Host

  const LOADED_TWICE: string := "should only be loaded once"

  /** `Option<T>` for synchronous calls, `DefaultFinalize(Option<T>)` for asynchronous ones. */
  class Slot<T> {
    var contents: Option<T>

    /** `borrow` / `save_async_arg`: `Some(convert_from(...)?)`. */
    constructor (value: T)
      ensures contents == Some(value)
    {
      contents := Some(value);
    }

    /** `load_from` / `load_async_arg`: `take().expect(...)`. The first load returns the
        value; every later one panics. Either way the slot is left empty. */
    method Load() returns (r: Unwind<T>)
      modifies this
      ensures contents == None
      ensures old(contents).Some? ==> r == Returns(old(contents).value)
      ensures old(contents).None? ==> r == Panics(LOADED_TWICE)
    {
      var taken := contents;
      contents := None;
      if taken.Some? {
        r := Returns(taken.value);
      } else {
        r := Panics(LOADED_TWICE);
      }
    }
  }
}
