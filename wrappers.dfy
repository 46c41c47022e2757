/** Failure-compatible wrappers shared by the whole model. */
module Wrappers {

  /** PHP's `null` (or the `false` the compiler uses to mean "omit this") versus a value. */
  datatype Option<+T> = None | Some(value: T)

  /** What a compile or builder call throws: the RuntimeException of the `notSupport` helpers,
      identified by the keyword that was refused, or the failure of `count()` applied to a value
      that is not countable (a TypeError from PHP 8 on). */
  datatype Error = Unsupported(keyword: string) | NotCountable

  /** A computation that either produces a value or throws `notSupport`. */
  datatype Result<+T> = Ok(value: T) | Err(error: Error) {
    predicate IsFailure() { Err? }

    function PropagateFailure<U>(): Result<U>
      requires Err?
    {
      Err(error)
    }

    function Extract(): T
      requires Ok?
    {
      value
    }
  }
}
