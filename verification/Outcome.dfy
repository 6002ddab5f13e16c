/**
 The result of one step of a machine that may stop at a failed assert.  `NotEnabled` marks
 moves the environment cannot make; no run contains them.
 */
module Outcomes {

  datatype Outcome<+T> = Ok(value: T) | AssertFailed | NotEnabled {
    predicate IsFailure() {
      !Ok?
    }

    function PropagateFailure<U>(): Outcome<U>
      requires !Ok?
    {
      if AssertFailed? then AssertFailed else NotEnabled
    }

    function Extract(): T
      requires Ok?
    {
      value
    }
  }

  datatype Check = Holds | Violated | Disabled {
    predicate IsFailure() {
      !Holds?
    }

    function PropagateFailure<U>(): Outcome<U>
      requires !Holds?
    {
      if Violated? then AssertFailed else NotEnabled
    }
  }

  /** An assert of the source. */
  function Assert(condition: bool): Check {
    if condition then Holds else Violated
  }

  /** A contract of the environment. */
  function Given(condition: bool): Check {
    if condition then Holds else Disabled
  }
}
