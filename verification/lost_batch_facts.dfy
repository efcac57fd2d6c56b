/**
 Where fact publication of a batch ends: a run in which a failed member's owner vanishes after its settlement and the
 recovered delivery settles the row with every statement acknowledged, although the member's progress is never
 published.
 */
module LostBatchFacts {
  import opened Common
  import opened Attempts
  import opened WorkflowTypes
  import opened Recovery
  import opened BatchStore
  import opened BatchEngine
  import opened BatchWitness
  import K = ChainWitness
  import Sql = SqlRows

  const FATAL := Failure("fatal", true, false)
  const FAILED := SettledAs(MemberFailed)
  const DEAD := Row(Sql.Dead, 1, K.LATER, None, None)
  const ECHO := Returned(Permanent(ALREADY_FAILED), 0)

  function Mute(b: Batch): System {
    At(b, DEAD, map[K.T1 := MARKED, K.T2 := D2], map[K.T2 := 1], map[])
  }

  /** The inherited receipt of a failed member yields no fact. */
  lemma NothingRebuilt(b: Batch)
    requires b.receipts == map["j" := ReceiptOf(MemberFailed, true)] && b.state.completed && b.state.cancelled
    requires b.state.dispatchId == "d" && b.state.createdAt == 0
    ensures AfterCheckReceipt(b, true, MEMBER, 0, Provenance(K.T2, K.T1, true), b.state, RunHandler) == (ECHO, [])
  {
    ClaimIsValid();
  }

  lemma SecondSettles(b: Batch)
    ensures Leads(Held2(b, ECHO), Step(K.T2, K.LATER, Succeeded), Mute(b))
  {
    K.Tokens();
    assert Publications(Worker(MEMBER, NONE, ECHO), K.T2) == {};
    assert Held2(b, ECHO).workers - {K.T2} == map[];
  }

  lemma SettleLegs(b: Batch)
    ensures CanReach(Held2(b, ECHO), Mute(b))
  {
    Here(Mute(b));
    SecondSettles(b);
    Then(Held2(b, ECHO), Step(K.T2, K.LATER, Succeeded), Mute(b), Mute(b));
  }

  lemma RecoveryLegs(b: Batch, facts: seq<Fact>, end: System)
    requires CanReach(Recovered(b), end)
    ensures CanReach(Abandoned(b), end)
  {
    FirstVanishes(b, facts, Errored(FATAL));
    Then(Abandoned(b), Recover(K.LATER, K.LEASE), Recovered(b), end);
  }

  lemma MuteLegs(b: Batch, facts: seq<Fact>)
    requires Leads(Held1(STARTED, Failing(FATAL)), Step(K.T1, K.EARLY, Errored(FATAL)),
                   Settled1(b, facts, Errored(FATAL)))
    requires b.receipts == map["j" := ReceiptOf(MemberFailed, true)] && b.state.completed && b.state.cancelled
    requires b.state.batchId == "b" && b.state.dispatchId == "d" && b.state.createdAt == 0
    requires RecoverableState(b.state)
    ensures CanReach(START, Mute(b))
  {
    SettleLegs(b);
    NothingRebuilt(b);
    CheckLegs(b, ECHO, Mute(b));
    RecoveryLegs(b, facts, Mute(b));
    FirstLegs(Errored(FATAL), Failing(FATAL), b, facts, Mute(b));
  }

  lemma ReachesMute()
    ensures CanReach(START, Mute(FAILED))
  {
    MemberSettles(MemberFailed);
    var facts := SettlementYields(STARTED, FAILED,
                                  SettleResult(FAILED.state, true, true, Some(ReceiptOf(MemberFailed, true))),
                                  Failing(FATAL), Errored(FATAL));
    FirstSettles(Failing(FATAL), FAILED, facts, Errored(FATAL));
    MuteLegs(FAILED, facts);
  }

  /**
   A failed member can lose its progress fact: some run in which every statement is applied and acknowledged settles the
   member and removes its row from delivery although nothing is ever published and nothing is left that could publish.
   */
  lemma FailedMemberLosesProgress()
    ensures exists actions, s ::
              && Initial(START, RECORD, 0) && IsRun(START, actions, s) && AllOrderly(actions)
              && "j" in s.batch.jobs && s.batch.jobs["j"].done && s.batch.jobs["j"].failed
              && s.published == {} && s.workers == map[]
              && (forall id :: id in s.db.rows ==> s.db.rows[id].state == Sql.Dead)
  {
    StartIsInitial();
    ReachesMute();
    MemberSettles(MemberFailed);
    assert Unseal(0);
    var actions :| IsRun(START, actions, Mute(FAILED)) && AllOrderly(actions);
  }
}
