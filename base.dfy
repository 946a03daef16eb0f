/**
 * Shared value types: optional values, the exceptions the pipeline raises,
 * and the outcome of an operation that may raise one.
 */
module Base {

  datatype Option<+T> = None | Some(value: T)

  /**
   * The typed errors of the pipeline. Each is a kind of TestError: the driver
   * catches all of them in one clause and reads their message and details.
   */
  datatype ErrorKind =
    | TestErr
    | SetupErr
    | ServerErr
    | TimeoutErr
    | WorkflowErr
    | WorkflowExecutionErr
    | ConfigErr
    | ScreenshotErr

  /** The `details` payload of a TestError. */
  datatype Details = NoDetails | Text(text: string) | Lines(lines: seq<string>)

  /** A raised exception: a TestError of some kind, or any other Python exception. */
  datatype Exc =
    | Typed(kind: ErrorKind, message: string, details: Details)
    | Untyped(pyType: string, text: string)

  /** `str(e)`: a TestError shows its message, any other exception its text. */
  function ExcText(e: Exc): string
  {
    match e
    case Typed(_, message, _) => message
    case Untyped(_, text) => text
  }

  /** The result of an operation that either returns a value or raises. */
  datatype Outcome<+T> = Ok(value: T) | Raised(exc: Exc)
  {
    predicate IsFailure() { Raised? }

    /** The outcome is a TestError of kind `k`. */
    predicate RaisedKind(k: ErrorKind) { Raised? && exc.Typed? && exc.kind == k }

    function PropagateFailure<U>(): Outcome<U>
      requires Raised?
    {
      Raised(exc)
    }

    function Extract(): T
      requires Ok?
    {
      value
    }
  }

  function Fail<T>(kind: ErrorKind, message: string, details: Details): Outcome<T>
  {
    Raised(Typed(kind, message, details))
  }

  function PyFail<T>(pyType: string, text: string): Outcome<T>
  {
    Raised(Untyped(pyType, text))
  }

  /** A prefix one longer is the prefix and the next element (a step of a left-to-right loop). */
  lemma TakeSnoc<T>(s: seq<T>, i: nat)
    requires i < |s|
    ensures s[..i + 1] == s[..i] + [s[i]]
  {
  }
}
