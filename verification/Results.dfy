/** Failure-carrying results: a checker either accepts with a value or names
    the requirement that failed. */
module Results {

  datatype Option<+T> = None | Some(value: T)

  datatype Result<+T> = Ok(value: T) | Err(reason: string) {
    predicate IsFailure() {
      Err?
    }

    function PropagateFailure<U>(): Result<U>
      requires Err?
    {
      Err(reason)
    }

    function Extract(): T
      requires Ok?
    {
      value
    }
  }

  datatype Requirement = Met | Unmet(reason: string) {
    predicate IsFailure() {
      Unmet?
    }

    function PropagateFailure<U>(): Result<U>
      requires Unmet?
    {
      Err(reason)
    }
  }

  /** `:- Need(condition, reason)` stops with `reason` unless the condition holds. */
  function Need(condition: bool, reason: string): Requirement {
    if condition then Met else Unmet(reason)
  }
}
