/** Failure-compatible result types shared by the model. */
module Wrappers {

  /** Ruby's `nil`-or-value outcome of a lookup that does not raise. */
  datatype Option<+T> = None | Some(value: T) {
    predicate IsFailure() { None? }

    function PropagateFailure<U>(): Option<U>
      requires None?
    {
      None
    }

    function Extract(): T
      requires Some?
    {
      value
    }
  }

  /** The outcome of a Ruby expression: a value, or the exception it raises.
      `at` names the Ruby expression whose evaluation raised. */
  datatype Result<+T> = Ok(value: T) | Raise(at: string) {
    predicate IsFailure() { Raise? }

    function PropagateFailure<U>(): Result<U>
      requires Raise?
    {
      Raise(at)
    }

    function Extract(): T
      requires Ok?
    {
      value
    }
  }

  /** Turns a step that may raise into a Result that names the step. */
  function OrRaise<T>(o: Option<T>, at: string): (r: Result<T>)
    ensures r.Ok? <==> o.Some?
    ensures r.Ok? ==> r.value == o.value
    ensures r.Raise? ==> r.at == at
  {
    match o
    case Some(v) => Ok(v)
    case None => Raise(at)
  }
}
