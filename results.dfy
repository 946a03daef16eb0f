/**
 * The outcome of testing one platform, as the drivers report it.
 */
module Results {
  import opened Base

  /**
   * A platform's result: its name, whether every level passed, and for a
   * failure the error message and the details the error carried.
   */
  datatype TestResult = TestResult(platform: string, success: bool, error: Option<string>, details: Details)

  /** Python truthiness of a TestError's `details`: present and non-empty. */
  predicate HasDetails(d: Details)
  {
    match d
    case NoDetails => false
    case Text(t) => t != ""
    case Lines(ls) => ls != []
  }

  /** A passed platform: no error, no details. */
  function Passed(platform: string): (r: TestResult)
    ensures r.success && r.platform == platform && r.error.None? && !HasDetails(r.details)
  {
    TestResult(platform, true, None, NoDetails)
  }

  /**
   * The failed result for an exception: a TestError reports its message and
   * its details, any other exception only its text.
   */
  function FailureResult(platform: string, e: Exc): (r: TestResult)
    ensures !r.success && r.platform == platform
    ensures r.error == Some(ExcText(e))
    ensures e.Typed? ==> r.details == e.details
    ensures e.Untyped? ==> r.details == NoDetails
  {
    match e
    case Typed(_, message, details) => TestResult(platform, false, Some(message), details)
    case Untyped(_, text) => TestResult(platform, false, Some(text), NoDetails)
  }
}
