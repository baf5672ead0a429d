/** The enrollment page: a status machine (idle, loading, success, error)
    held in component state and advanced by its effect, by the settling of the
    enrollment request and by the "Try Again" button; and the server-side
    check that sends visitors without a session to the login page. The
    request's outcome is an input. */
module Enrollment {
  import opened Common

  datatype Status = Idle | Loading | Success | Error

  /** How the awaited `fetch` settles: with a response (its `ok` flag) or by
      rejecting with an error. */
  datatype FetchOutcome = Responded(ok: bool) | Rejected(error: Thrown)

  const SuccessMessage := "Successfully enrolled! Redirecting..."
  const FailureMessage := "Enrollment failed"
  const UnknownFailure := "An error occurred"

  function CoursePath(courseId: string): string
  {
    "/course/" + courseId
  }

  /** The message the `catch` block shows: a non-ok response throws
      `Error("Enrollment failed")`; a rejection shows its own message. */
  function FailureText(outcome: FetchOutcome): (m: string)
    requires outcome != Responded(true)
    ensures outcome.Responded? ==> m == FailureMessage
    ensures outcome.Rejected? && outcome.error.NonError? ==> m == UnknownFailure
    ensures outcome.Rejected? && outcome.error.ErrorObject? ==> m == outcome.error.message
  {
    match outcome
    case Responded(_) => FailureMessage
    case Rejected(ErrorObject(msg)) => msg
    case Rejected(NonError) => UnknownFailure
  }

  class EnrollPage {
    /** `router.query.id`. */
    const courseId: Option<string>
    var status: Status
    var message: string
    /** The `router.push` queued by the two-second timer, if any. */
    var scheduled: Option<string>

    /** Idle and loading pages show no message; only a successful page has a
        navigation queued, to the course it enrolled in. */
    ghost predicate Valid()
      reads this
    {
      && (status in {Idle, Loading} ==> message == "")
      && (status == Success ==> message == SuccessMessage && courseId.Some?
                                && scheduled == Some(CoursePath(courseId.value)))
      && (status != Success ==> scheduled == None)
    }

    predicate CanStart()
      reads this
    {
      Truthy(courseId) && status == Idle
    }

    constructor (courseId: Option<string>)
      ensures Valid()
      ensures this.courseId == courseId && status == Idle && message == "" && scheduled == None
    {
      this.courseId := courseId;
      status := Idle;
      message := "";
      scheduled := None;
    }

    /** The effect, run whenever the course id or the status changes: it
        starts an attempt (status `loading`) only with a course id and while
        idle, and otherwise does nothing. */
    method Effect() returns (started: bool)
      requires Valid()
      modifies this
      ensures Valid()
      ensures started == old(CanStart())
      ensures started ==> status == Loading && message == old(message) && scheduled == old(scheduled)
      ensures !started ==> status == old(status) && message == old(message) && scheduled == old(scheduled)
    {
      if !Truthy(courseId) || status != Idle {
        return false;
      }
      status := Loading;
      started := true;
    }

    /** The attempt's request settles: `success` with the success message and
        the timer's navigation on an ok response, `error` otherwise. */
    method Settle(outcome: FetchOutcome)
      requires Valid() && status == Loading && Truthy(courseId)
      modifies this
      ensures Valid()
      ensures outcome == Responded(true) ==>
        status == Success && message == SuccessMessage && scheduled == Some(CoursePath(courseId.value))
      ensures outcome != Responded(true) ==>
        status == Error && message == FailureText(outcome) && scheduled == None
    {
      if outcome == Responded(true) {
        status := Success;
        message := SuccessMessage;
        scheduled := Some(CoursePath(courseId.value));
      } else {
        status := Error;
        message := FailureText(outcome);
      }
    }

    /** "Try Again", which the page shows only in the error state: back to
        idle with the message cleared. */
    method TryAgain()
      requires Valid() && status == Error
      modifies this
      ensures Valid()
      ensures status == Idle && message == "" && scheduled == old(scheduled)
    {
      status := Idle;
      message := "";
    }
  }

  /** A failed attempt followed by "Try Again" lets the effect start exactly
      one new attempt: the first run after the reset starts it, a second run
      does not. */
  method RetryStartsOnce(page: EnrollPage, failure: FetchOutcome) returns (first: bool, second: bool)
    requires page.Valid() && page.status == Loading && Truthy(page.courseId)
    requires failure != Responded(true)
    modifies page
    ensures page.Valid()
    ensures first && !second && page.status == Loading && page.message == ""
  {
    page.Settle(failure);
    page.TryAgain();
    first := page.Effect();
    second := page.Effect();
  }

  // ---------------------------------------------------------------------
  // getServerSideProps

  datatype ServerProps = RedirectTo(destination: string, permanent: bool) | EmptyProps

  const LoginCallbackPrefix := "/login?callbackUrl="

  /** Without a session: a temporary redirect to the login page, carrying the
      encoded resolved URL (`/` when it is empty) as `callbackUrl`. With one:
      empty props. `encode` is `encodeURIComponent`. */
  function ServerSideProps(hasSession: bool, resolvedUrl: Option<string>, encode: string -> string)
    : (r: ServerProps)
    ensures hasSession <==> r == EmptyProps
    ensures r.RedirectTo? ==> !r.permanent && LoginCallbackPrefix <= r.destination
    ensures r.RedirectTo? ==> r.destination[|LoginCallbackPrefix|..] == encode(OrElse(resolvedUrl, "/"))
  {
    if !hasSession then
      RedirectTo(LoginCallbackPrefix + encode(OrElse(resolvedUrl, "/")), false)
    else
      EmptyProps
  }
}
