/** Calls that may raise, and processes that may die between two durable writes. */
module Processes {
  import opened Options

  /** A result, an exception that leaves the call, or the death of the process. */
  datatype Outcome<+T> = Fine(value: T) | Raise | Crash
  {
    predicate IsFailure()
    {
      !Fine?
    }

    function PropagateFailure<U>(): Outcome<U>
      requires IsFailure()
    {
      if Raise? then Raise else Crash
    }

    function Extract(): T
      requires Fine?
    {
      value
    }
  }

  /** A budget after some store calls. */
  predicate Later(before: Option<nat>, after: Option<nat>)
  {
    before.Some? == after.Some? && (before.Some? ==> after.value <= before.value)
  }

  lemma YesOrNo(o: Outcome<bool>)
    ensures o.Fine? ==> o == Fine(true) || o == Fine(false)
  {
    if o.Fine? && o.value {
      assert o == Fine(true);
    }
  }
}
