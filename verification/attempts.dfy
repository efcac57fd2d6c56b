/** Attempt classification shared by the workflow engine and every settlement owner. */
module Attempts {

  /** An application or infrastructure error; the flags record which markers wrap it. */
  datatype Failure = Failure(text: string, permanent: bool, uncommitted: bool)

  /** A handler's error result: nil, or an error. */
  datatype Outcome = Succeeded | Errored(failure: Failure)

  datatype Decision = AttemptSucceeded | AttemptRetry | AttemptFailed | AttemptRedeliver

  /** Attempt numbers are zero-based; maxRetry counts the retries after the first attempt. */
  datatype Attempt = Attempt(number: nat, maxRetry: nat) {
    predicate Exhausted() {
      number >= maxRetry
    }
  }

  function ClassifyAttempt(attempt: Attempt, outcome: Outcome): Decision {
    match outcome
    case Succeeded => AttemptSucceeded
    case Errored(failure) =>
      if failure.uncommitted then AttemptRedeliver
      else if failure.permanent || attempt.Exhausted() then AttemptFailed
      else AttemptRetry
  }

  /** Wraps an infrastructure failure so that its delivery repeats the same attempt. */
  function Uncommitted(text: string): Outcome {
    Errored(Failure(text, false, true))
  }

  /** Wraps an application failure so that its delivery settles terminally. */
  function Permanent(text: string): Outcome {
    Errored(Failure(text, true, false))
  }
}
