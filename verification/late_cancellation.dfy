/**
 What a late cancellation does: a run in which the only member succeeds and completes its batch, the batch is then
 cancelled, and the recovered delivery of the member is refused although the batch can be read.
 */
module LateCancellation {
  import opened Common
  import opened Attempts
  import opened WorkflowTypes
  import opened Recovery
  import opened BatchStore
  import opened BatchEngine
  import opened BatchWitness
  import K = ChainWitness
  import R = BatchReplay

  const SUCCEEDED := SettledAs(MemberSucceeded)
  const CANCELLED := CancelBatch(SUCCEEDED, K.LATER)
  const REFUSED := Refused("receipt mismatch")

  lemma CancelLeads(b: Batch)
    ensures Leads(Abandoned(b), Action.Cancel(K.LATER), Abandoned(CancelBatch(b, K.LATER)))
  {
  }

  lemma CancelledState()
    ensures CANCELLED.state.cancelled && CANCELLED.state.completed && RecoverableState(CANCELLED.state)
    ensures CANCELLED.state.batchId == "b" && CANCELLED.state.dispatchId == "d"
    ensures CANCELLED.receipts == map["j" := ReceiptOf(MemberSucceeded, false)]
    ensures "j" in CANCELLED.jobs && CANCELLED.jobs["j"].done && !CANCELLED.jobs["j"].failed
  {
    MemberSettles(MemberSucceeded);
  }

  /** The checks accept the cancelled batch, but its completion owner's receipt no longer fits it. */
  lemma ReceiptIsRefused(b: Batch)
    requires b.receipts == map["j" := ReceiptOf(MemberSucceeded, false)] && b.state.cancelled
    ensures AfterCheckReceipt(b, true, MEMBER, 0, Provenance(K.T2, K.T1, true), b.state, RunHandler) == (REFUSED, [])
  {
  }

  lemma CancelLegs(b: Batch, facts: seq<Fact>, end: System)
    requires CanReach(Recovered(CancelBatch(b, K.LATER)), end)
    ensures CanReach(Abandoned(b), end)
  {
    var b' := CancelBatch(b, K.LATER);
    FirstVanishes(b', facts, Succeeded);
    Then(Abandoned(b'), Recover(K.LATER, K.LEASE), Recovered(b'), end);
    CancelLeads(b);
    Then(Abandoned(b), Action.Cancel(K.LATER), Abandoned(b'), end);
  }

  lemma RefusalLegs(b: Batch, facts: seq<Fact>)
    requires Leads(Held1(STARTED, Succeeding), Step(K.T1, K.EARLY, Succeeded), Settled1(b, facts, Succeeded))
    requires var b' := CancelBatch(b, K.LATER);
             && b'.receipts == map["j" := ReceiptOf(MemberSucceeded, false)] && RecoverableState(b'.state)
             && b'.state.batchId == "b" && b'.state.dispatchId == "d"
    ensures CanReach(START, Held2(CancelBatch(b, K.LATER), REFUSED))
  {
    var b' := CancelBatch(b, K.LATER);
    Here(Held2(b', REFUSED));
    ReceiptIsRefused(b');
    CheckLegs(b', REFUSED, Held2(b', REFUSED));
    CancelLegs(b, facts, Held2(b', REFUSED));
    FirstLegs(Succeeded, Succeeding, b, facts, Held2(b', REFUSED));
  }

  lemma ReachesRefusal()
    ensures CanReach(START, Held2(CANCELLED, REFUSED))
  {
    MemberSettles(MemberSucceeded);
    CancelledState();
    var facts := SettlementYields(STARTED, SUCCEEDED,
                                  SettleResult(SUCCEEDED.state, true, true, Some(ReceiptOf(MemberSucceeded, false))),
                                  Succeeding, Succeeded);
    FirstSettles(Succeeding, SUCCEEDED, facts, Succeeded);
    RefusalLegs(SUCCEEDED, facts);
  }

  /** A stored batch whose only member succeeded, with a recovered delivery of it that has just been refused. */
  predicate RefusedAfterSuccess(s: System) {
    && s.stored && "j" in s.batch.jobs && s.batch.jobs["j"].done && !s.batch.jobs["j"].failed
    && K.T2 in s.workers && s.workers[K.T2].phase.Returned? && R.Refuses(s.workers[K.T2].phase.outcome)
  }

  lemma EndsRefused(b: Batch)
    requires "j" in b.jobs && b.jobs["j"].done && !b.jobs["j"].failed
    ensures RefusedAfterSuccess(Held2(b, REFUSED))
  {
  }

  /**
   Some run in which every statement is applied and acknowledged ends with a stored batch whose only member succeeded
   and with a recovered delivery of that member whose check has just refused it.
   */
  lemma LateCancellationRefusesRecovery()
    ensures exists actions, s ::
              && Initial(START, RECORD, 0) && IsRun(START, actions, s) && AllOrderly(actions)
              && RefusedAfterSuccess(s)
  {
    StartIsInitial();
    ReachesRefusal();
    CancelledState();
    EndsRefused(CANCELLED);
    assert Unseal(0);
    var actions :| IsRun(START, actions, Held2(CANCELLED, REFUSED)) && AllOrderly(actions);
  }
}
