/** Shared result types: Java's null and the checker's two kinds of exception. */
module Wrappers {
  /** A Java reference that may be null. */
  datatype Option<T> = None | Some(value: T)

  /** The two ways a step of the checker aborts: a located CheckException that is reported
      to the user, or an internal RuntimeException (including the null-pointer and
      class-cast exceptions the Java code can raise). */
  datatype Error = Check(message: string) | Internal(message: string)

  /** The outcome of a step that may throw. */
  datatype Outcome<T> = Success(value: T) | Failure(error: Error)
  {
    predicate IsFailure() { Failure? }
    function PropagateFailure<U>(): Outcome<U>
      requires Failure?
    {
      Failure(error)
    }
    function Extract(): T
      requires Success?
    {
      value
    }
  }

  function CheckFail<T>(message: string): Outcome<T>
  {
    Failure(Check(message))
  }

  function InternalFail<T>(message: string): Outcome<T>
  {
    Failure(Internal(message))
  }

  /** The NullPointerException a dereference of null raises. */
  function NullPointer<T>(): Outcome<T>
  {
    InternalFail("NullPointerException")
  }
}
