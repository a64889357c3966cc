/** `LazilyInitialized<T>`: one optional slot behind a `RefCell`, written
    once, replaced, or read, and failing when read empty or initialised
    twice.  The class is the shared handle; `Snapshot` is what `Clone`
    produces: a copy of the slot's content as it is at that moment, which
    later writes through the handle do not reach. */
module Lazy {
  import opened Common
  import opened Errors

  class LazilyInitialized<T> {
    var slot: Option<T>

    /** `LazilyInitialized::uninitialized`. */
    constructor Uninitialized()
      ensures slot == None
    {
      slot := None;
    }

    /** Fills an empty slot; fails with "already initialized" and leaves the
        slot as it was when it is full. */
    method InitializeWith(t: T) returns (r: Outcome)
      modifies this
      ensures old(slot).Some? ==> r == Fail(AlreadyInitialized) && slot == old(slot)
      ensures old(slot).None? ==> r == Pass && slot == Some(t)
    {
      if slot.Some? {
        return Fail(AlreadyInitialized);
      }
      slot := Some(t);
      r := Pass;
    }

    /** Installs `t` and hands back the previous content, if any. */
    method InitializeOrReplaceWith(t: T) returns (previous: Option<T>)
      modifies this
      ensures previous == old(slot)
      ensures slot == Some(t)
    {
      previous := slot;
      slot := Some(t);
    }

    /** Reads the content; fails with "should be initialized" when the slot
        is empty.  Nothing changes. */
    method AssumeInit() returns (r: Result<T>)
      ensures r.Ok? <==> slot.Some?
      ensures r.Ok? ==> r.value == slot.value
      ensures r.Err? ==> r.fault == NotInitialized
    {
      match slot
      case Some(t) => r := Ok(t);
      case None => r := Err(NotInitialized);
    }

    /** Mutates the content in place through `update`; fails with "should be
        initialized" on an empty slot, which it leaves empty. */
    method AssumeInitMut(update: T -> T) returns (r: Outcome)
      modifies this
      ensures old(slot).None? ==> r == Fail(NotInitialized) && slot == None
      ensures old(slot).Some? ==> r == Pass && slot == Some(update(old(slot).value))
    {
      match slot
      case Some(t) =>
        slot := Some(update(t));
        r := Pass;
      case None =>
        r := Fail(NotInitialized);
    }

    /** The content a `clone()` of this slot carries. */
    function Snapshot(): Option<T>
      reads this
    {
      slot
    }
  }

  /** Replacing twice returns first nothing, then the first value, and a
      read afterwards sees the second value. */
  method ReplaceTwiceThenRead<T>(cell: LazilyInitialized<T>, a: T, b: T)
    returns (first: Option<T>, second: Option<T>, read: Result<T>)
    requires cell.slot == None
    modifies cell
    ensures first == None && second == Some(a) && read == Ok(b)
    ensures cell.slot == Some(b)
  {
    first := cell.InitializeOrReplaceWith(a);
    second := cell.InitializeOrReplaceWith(b);
    read := cell.AssumeInit();
  }

  /** A copy taken before the slot is filled stays empty: a read through
      the copy fails although the original now reads back its value. */
  method SnapshotIsNotShared<T>(cell: LazilyInitialized<T>, t: T)
    returns (copy: Option<T>, original: Result<T>)
    requires cell.slot == None
    modifies cell
    ensures copy == None
    ensures original == Ok(t)
  {
    copy := cell.Snapshot();
    var _ := cell.InitializeOrReplaceWith(t);
    original := cell.AssumeInit();
  }
}
