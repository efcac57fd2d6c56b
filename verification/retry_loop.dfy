/** The in-process retry loop and its agreement with the attempt accounting of SQL rows. */
module RetryLoop {
  import opened Attempts
  import Sql = SqlRows

  datatype Ending = Finished | Failed(failure: Failure) | Cancelled | Running

  function Decide(number: nat, maxRetry: nat, outcome: Outcome): Decision {
    ClassifyAttempt(Attempt(number, maxRetry), outcome)
  }

  /** The number of the i-th attempt: one more for each earlier outcome that was retried. */
  function AttemptAt(maxRetry: nat, outcomes: seq<Outcome>, i: nat): nat
    requires i <= |outcomes|
  {
    if i == 0 then 0
    else
      var n := AttemptAt(maxRetry, outcomes, i - 1);
      if Decide(n, maxRetry, outcomes[i - 1]) == AttemptRetry then n + 1 else n
  }

  /** Retries stop at the budget, however many redeliveries intervene. */
  lemma {:induction false} WithinBudget(maxRetry: nat, outcomes: seq<Outcome>, i: nat)
    requires i <= |outcomes|
    ensures AttemptAt(maxRetry, outcomes, i) <= maxRetry
  {
    if i > 0 {
      WithinBudget(maxRetry, outcomes, i - 1);
    }
  }

  /** The i-th attempt is followed by another one. */
  predicate Continues(maxRetry: nat, outcomes: seq<Outcome>, cancelled: seq<bool>, i: nat)
    requires i < |outcomes| == |cancelled|
  {
    !cancelled[i] && Decide(AttemptAt(maxRetry, outcomes, i), maxRetry, outcomes[i]) in {AttemptRetry, AttemptRedeliver}
  }

  /** How the loop ends after its last attempt. */
  predicate EndsAs(maxRetry: nat, outcomes: seq<Outcome>, cancelled: seq<bool>, i: nat, ending: Ending)
    requires i < |outcomes| == |cancelled|
  {
    match Decide(AttemptAt(maxRetry, outcomes, i), maxRetry, outcomes[i])
    case AttemptSucceeded => ending == Finished
    case AttemptFailed => outcomes[i].Errored? && ending == Failed(outcomes[i].failure)
    case _ => ending == Cancelled && cancelled[i]
  }

  function Budget(requested: int): nat {
    if requested > 0 then requested else 0
  }

  /**
   The loop over a script of handler results and cancellations. Every attempt it issues carries the number the earlier
   outcomes determine, and it ends exactly at the first success, terminal failure or cancelled wait.
   */
  method RunWithRetry(requested: int, outcomes: seq<Outcome>, cancelled: seq<bool>)
    returns (attempts: seq<nat>, ending: Ending)
    requires |cancelled| == |outcomes|
    ensures |attempts| <= |outcomes|
    ensures forall i {:trigger attempts[i]} :: 0 <= i < |attempts| ==>
        attempts[i] == AttemptAt(Budget(requested), outcomes, i)
    ensures forall i :: 0 <= i < |attempts| - 1 ==> Continues(Budget(requested), outcomes, cancelled, i)
    ensures if ending == Running then |attempts| == |outcomes|
            else |attempts| > 0 && EndsAs(Budget(requested), outcomes, cancelled, |attempts| - 1, ending)
  {
    var maxRetry := 0;
    if requested > 0 {
      maxRetry := requested;
    }
    attempts := [];
    var attempt := 0;
    for i := 0 to |outcomes|
      invariant |attempts| == i && attempt == AttemptAt(maxRetry, outcomes, i)
      invariant forall j {:trigger attempts[j]} :: 0 <= j < i ==> attempts[j] == AttemptAt(maxRetry, outcomes, j)
      invariant forall j :: 0 <= j < i ==> Continues(maxRetry, outcomes, cancelled, j)
    {
      attempts := attempts + [attempt];
      var decision := ClassifyAttempt(Attempt(attempt, maxRetry), outcomes[i]);
      if decision == AttemptSucceeded {
        return attempts, Finished;
      }
      if decision == AttemptFailed {
        return attempts, Failed(outcomes[i].failure);
      }
      if decision == AttemptRetry {
        attempt := attempt + 1;
      }
      if cancelled[i] {
        return attempts, Cancelled;
      }
    }
    return attempts, Running;
  }

  /** A handler that keeps failing retryably is attempted exactly maxRetry + 1 times, numbered 0 to maxRetry. */
  lemma {:induction false} RetryableFailuresCountUp(maxRetry: nat, outcomes: seq<Outcome>, i: nat)
    requires i <= maxRetry && i <= |outcomes|
    requires forall j :: 0 <= j < |outcomes| ==>
               outcomes[j].Errored? && !outcomes[j].failure.permanent && !outcomes[j].failure.uncommitted
    ensures AttemptAt(maxRetry, outcomes, i) == i
    ensures i < |outcomes| ==> Decide(i, maxRetry, outcomes[i]) == if i < maxRetry then AttemptRetry else AttemptFailed
  {
    if i > 0 {
      RetryableFailuresCountUp(maxRetry, outcomes, i - 1);
    }
  }

  // ---------- The same accounting as SQL rows ----------

  /** The row after its first i claims were settled with these failures. */
  function RowAt<P>(id: nat, row: Sql.Row<P>, tokens: seq<string>, outcomes: seq<Outcome>, now: int, i: nat): Sql.Row<P>
    requires i <= |outcomes| == |tokens| && forall j :: 0 <= j < |outcomes| ==> outcomes[j].Errored?
  {
    if i == 0 then row
    else
      var before := RowAt(id, row, tokens, outcomes, now, i - 1);
      Sql.FailedRow(before, Sql.ClaimedDelivery(id, before, tokens[i - 1]), outcomes[i - 1], now)
  }

  predicate Terminal(maxRetry: nat, outcomes: seq<Outcome>, i: nat)
    requires i < |outcomes|
  {
    Decide(AttemptAt(maxRetry, outcomes, i), maxRetry, outcomes[i]) == AttemptFailed
  }

  /**
   As long as no failure is terminal, the row's attempt is the loop's attempt and the row stays pending; a terminal
   failure makes the row dead with the attempt charged once more.
   */
  lemma {:induction false} RowsCountLikeTheLoop<P>(
      id: nat, row: Sql.Row<P>, tokens: seq<string>, outcomes: seq<Outcome>, now: int, i: nat)
    requires i <= |outcomes| == |tokens| && (forall j :: 0 <= j < |outcomes| ==> outcomes[j].Errored?)
    requires row.attempt == 0 && row.state == Sql.Pending
    requires forall j :: 0 <= j < i - 1 ==> !Terminal(row.maxRetry, outcomes, j)
    ensures var after := RowAt(id, row, tokens, outcomes, now, i);
            && after.maxRetry == row.maxRetry
            && (if i > 0 && Terminal(row.maxRetry, outcomes, i - 1)
                then after.state == Sql.Dead && after.attempt == AttemptAt(row.maxRetry, outcomes, i) + 1
                else after.state == Sql.Pending && after.attempt == AttemptAt(row.maxRetry, outcomes, i))
  {
    if i > 0 {
      RowsCountLikeTheLoop(id, row, tokens, outcomes, now, i - 1);
    }
  }
}
