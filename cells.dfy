/**
 * The run-time borrow check of Rust's `RefCell`, which the bridge relies on for
 * handles declared with `mut = true`: the boxed native value lives in a `RefCell`,
 * a shared argument takes `borrow()`, an exclusive argument takes `borrow_mut()`,
 * and the guard is held in the argument's storage until that storage is dropped.
 */
module Cells {

  /** The kind of access an argument asks for. */
  datatype Request = Shared | Exclusive

  /** The borrow flag of a `RefCell`: 0 while unused, n > 0 while n `Ref`s are alive,
      -1 while one `RefMut` is alive. */
  const UNUSED: int := 0
  const WRITING: int := -1

  /** `borrow()` succeeds unless a `RefMut` is alive; `borrow_mut()` only while unused. */
  predicate Granted(flag: int, req: Request)
  {
    match req
    case Shared => flag >= 0
    case Exclusive => flag == UNUSED
  }

  /** The flag once the request has been granted. */
  function Acquire(flag: int, req: Request): int
  {
    match req
    case Shared => flag + 1
    case Exclusive => WRITING
  }

  /** The flag once a guard of that kind is dropped (`Ref` decrements, `RefMut` increments). */
  function Release(flag: int, req: Request): int
  {
    match req
    case Shared => flag - 1
    case Exclusive => flag + 1
  }

  /** The panic message of a refused request. */
  function RefusalMessage(req: Request): string
  {
    match req
    case Shared => "already mutably borrowed"
    case Exclusive => "already borrowed"
  }

  /** A `RefCell<T>` whose borrow flag is shared by every host reference to the box. */
  class RefCell<T> {
    const value: T
    var flag: int

    ghost predicate Valid()
      reads this
    {
      flag >= WRITING
    }

    constructor (value: T)
      ensures Valid() && this.value == value && flag == UNUSED
    {
      this.value := value;
      flag := UNUSED;
    }

    /** `RefCell::borrow`: refused (the caller panics) while a `RefMut` is alive. */
    method Borrow() returns (granted: bool)
      requires Valid()
      modifies this
      ensures Valid()
      ensures granted <==> old(flag) != WRITING
      ensures flag == if granted then Acquire(old(flag), Shared) else old(flag)
    {
      granted := Granted(flag, Shared);
      if granted {
        flag := flag + 1;
      }
    }

    /** `RefCell::borrow_mut`: refused (the caller panics) while any borrow is alive. */
    method BorrowMut() returns (granted: bool)
      requires Valid()
      modifies this
      ensures Valid()
      ensures granted <==> old(flag) == UNUSED
      ensures flag == if granted then WRITING else old(flag)
    {
      granted := Granted(flag, Exclusive);
      if granted {
        flag := WRITING;
      }
    }

    /** Dropping a `Ref`; one is alive, so the flag is positive. */
    method ReleaseShared()
      requires Valid() && flag > UNUSED
      modifies this
      ensures Valid() && flag == old(flag) - 1
    {
      flag := Release(flag, Shared);
    }

    /** Dropping the `RefMut`; it is alive, so the flag is WRITING. */
    method ReleaseExclusive()
      requires flag == WRITING
      modifies this
      ensures Valid() && flag == UNUSED
    {
      flag := Release(flag, Exclusive);
    }
  }

  // The borrow check as a state machine, with the borrows actually alive counted
  // beside the flag, to show that the flag never lets two accesses conflict.

  /** How many `Ref` and `RefMut` guards on one cell are alive. */
  datatype Held = Held(shared: nat, exclusive: nat)

  datatype Event = Take(req: Request) | Drop(req: Request)

  datatype Tracker = Tracker(flag: int, held: Held)

  /** The flag describes exactly the guards that are alive. */
  predicate Agrees(t: Tracker)
  {
    || (t.held.exclusive == 0 && t.flag == t.held.shared)
    || (t.held.exclusive == 1 && t.held.shared == 0 && t.flag == WRITING)
  }

  predicate IsHeld(h: Held, req: Request)
  {
    match req
    case Shared => h.shared > 0
    case Exclusive => h.exclusive > 0
  }

  /** One event: a refused request panics and changes nothing; a guard that is not
      alive cannot be dropped, so such an event changes nothing either. */
  function Step(t: Tracker, e: Event): Tracker
  {
    match e
    case Take(req) =>
      if !Granted(t.flag, req) then t
      else if req.Shared? then Tracker(Acquire(t.flag, req), t.held.(shared := t.held.shared + 1))
      else Tracker(Acquire(t.flag, req), t.held.(exclusive := t.held.exclusive + 1))
    case Drop(req) =>
      if !IsHeld(t.held, req) then t
      else if req.Shared? then Tracker(Release(t.flag, req), t.held.(shared := t.held.shared - 1))
      else Tracker(Release(t.flag, req), t.held.(exclusive := t.held.exclusive - 1))
  }

  function Run(t: Tracker, events: seq<Event>): Tracker
    decreases |events|
  {
    if events == [] then t else Run(Step(t, events[0]), events[1..])
  }

  /** While the flag agrees with the live guards, each request is granted exactly when
      it conflicts with no live guard. */
  lemma GrantedIffNoConflict(t: Tracker)
    requires Agrees(t)
    ensures Granted(t.flag, Exclusive) <==> t.held == Held(0, 0)
    ensures Granted(t.flag, Shared) <==> t.held.exclusive == 0
  {
  }

  lemma StepAgrees(t: Tracker, e: Event)
    requires Agrees(t)
    ensures Agrees(Step(t, e))
  {
  }

  /** From a fresh cell, after any sequence of borrows and drops, at most one exclusive
      guard is alive, and never beside a shared one. */
  lemma {:induction false} BorrowsNeverConflict(t: Tracker, events: seq<Event>)
    requires Agrees(t)
    ensures Agrees(Run(t, events))
    ensures Run(t, events).held.exclusive <= 1
    ensures Run(t, events).held.exclusive == 1 ==> Run(t, events).held.shared == 0
    decreases |events|
  {
    if events != [] {
      StepAgrees(t, events[0]);
      BorrowsNeverConflict(Step(t, events[0]), events[1..]);
    }
  }
}
