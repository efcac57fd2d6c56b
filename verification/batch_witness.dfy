/**
 Parts shared by the concrete runs of a batch with one member: the member's first delivery settles it and vanishes, its
 lease is recovered, and a second delivery inherits the first. Every statement is applied and acknowledged.
 */
module BatchWitness {
  import opened Common
  import opened Attempts
  import opened WorkflowTypes
  import opened Recovery
  import opened BatchStore
  import opened BatchEngine
  import K = ChainWitness
  import Sql = SqlRows

  const RECORD := BatchRecord("b", "d", "", "", false, [BatchJob("j", K.JOB)], 0)
  const MEMBER := Envelope("d", "j", "", "b", "", K.JOB)
  const CLAIM := ClaimOf(MEMBER, 0, K.T1)

  // ---------- The batch ----------

  const CREATED := NewBatch(RECORD, 0)
  const STARTED := StartMember(CREATED, "j", K.EARLY)

  function SettledAs(outcome: MemberOutcome): Batch {
    SettleBatch(STARTED, "j", outcome, CLAIM, K.EARLY).0
  }

  function ReceiptOf(outcome: MemberOutcome, cancelled: bool): Receipt {
    Receipt(RECEIPT_VERSION, EVENT_SCHEMA_VERSION, BatchKind, "b", "d", 0, "j", outcome, CLAIM, true, cancelled)
  }

  lemma MemberIsThere()
    ensures "j" in CREATED.jobs && CREATED.jobs["j"] == MemberStatus(false, false, false) && CREATED.receipts == map[]
  {
    assert RECORD.jobs[0].jobId == "j";
  }

  lemma ClaimIsValid()
    ensures CLAIM.Valid() && CLAIM.deliveryId == K.T1
  {
    K.Tokens();
  }

  /** The only member settles, so its receipt owns the completion; a failure also cancels the batch. */
  lemma MemberSettles(outcome: MemberOutcome)
    requires !outcome.MemberOther?
    ensures var failed, b := outcome == MemberFailed, SettledAs(outcome);
            && "j" in STARTED.jobs && !STARTED.jobs["j"].done
            && SettleBatch(STARTED, "j", outcome, CLAIM, K.EARLY).1
               == Ok(SettleResult(b.state, true, true, Some(ReceiptOf(outcome, failed))))
            && "j" in b.jobs && b.jobs["j"].done && b.jobs["j"].failed == failed
            && b.receipts == map["j" := ReceiptOf(outcome, failed)]
            && b.state.completed && b.state.cancelled == failed && RecoverableState(b.state)
            && b.state.batchId == "b" && b.state.dispatchId == "d" && b.state.createdAt == 0
  {
    MemberIsThere();
    ClaimIsValid();
  }

  // ---------- States ----------

  function Row(state: Sql.RowState, attempt: nat, availableAt: int, startedAt: Option<int>, token: Option<string>)
    : Sql.Row<Envelope>
  {
    Sql.Row(state, attempt, 3, 0, None, availableAt, startedAt, token, MEMBER)
  }

  function At(b: Batch, row: Sql.Row<Envelope>, deliveries: map<string, Sql.Delivery>, settled: map<string, nat>,
              workers: map<string, Worker>): System
  {
    System(map["j" := K.JOB], b, true, Sql.Db(map[0 := row], 1, deliveries, settled), workers, {"j"}, {})
  }

  const START := System(map["j" := K.JOB], CREATED, true, Sql.Db(map[], 0, map[], map[]), map[], {}, {})

  const D1 := Sql.Delivery(0, K.T1, 0, 3, 0, false, "", false)
  const D2 := Sql.Delivery(0, K.T2, 0, 3, 0, true, K.T1, false)
  const MARKED := D1.(committed := true)
  const NONE: seq<Fact> := []

  const QUEUED := Row(Sql.Pending, 0, 0, None, None)
  const CLAIMED1 := Row(Sql.Processing, 0, 0, Some(K.EARLY), Some(K.T1))
  const STALE := Row(Sql.Pending, 0, K.LATER, None, Some(K.T1))
  const CLAIMED2 := Row(Sql.Processing, 0, K.LATER, Some(K.LATER), Some(K.T2))

  function Held1(b: Batch, phase: Phase): System {
    At(b, CLAIMED1, map[K.T1 := D1], map[], map[K.T1 := Worker(MEMBER, NONE, phase)])
  }

  function Held2(b: Batch, phase: Phase): System {
    At(b, CLAIMED2, map[K.T1 := MARKED, K.T2 := D2], map[], map[K.T2 := Worker(MEMBER, NONE, phase)])
  }

  /** The first delivery settled the member and holds its facts. */
  function Settled1(b: Batch, facts: seq<Fact>, outcome: Outcome): System {
    At(b, CLAIMED1, map[K.T1 := MARKED], map[], map[K.T1 := Worker(MEMBER, facts, Returned(outcome, 0))])
  }

  function Abandoned(b: Batch): System {
    At(b, CLAIMED1, map[K.T1 := MARKED], map[], map[])
  }

  function Recovered(b: Batch): System {
    At(b, STALE, map[K.T1 := MARKED], map[], map[])
  }

  lemma StartIsInitial()
    ensures Initial(START, RECORD, 0)
  {
    MemberIsThere();
    assert RECORD.jobs[0].jobId == "j";
  }

  // ---------- Steps ----------

  predicate Leads(s: System, a: Action, s': System) {
    Enabled(s, a) && Do(s, a) == s'
  }

  function Step(t: string, now: int, outcome: Outcome): Action {
    Work(t, Input(now, false, outcome, true, true))
  }

  /** What a worker's point does, sealed for proofs that only pass it on. */
  ghost predicate Yields(b: Batch, w: Worker, d: Sql.Delivery, a: Action, e: Effect) {
    a.Work? && !w.phase.Returned? && forall k :: Unseal(k) ==> PointEffect(b, true, w, d, a.input) == e
  }

  /** A point before settlement moves its worker as its effect says. */
  lemma PointLeads(s: System, a: Action, e: Effect)
    requires a.Work? && a.token in s.workers && a.token in s.db.deliveries && s.stored
    requires Whole(Yields(s.batch, s.workers[a.token], s.db.deliveries[a.token], a, e))
    ensures var t := a.token;
            Leads(s, a,
                  s.(batch := e.batch,
                     workers := s.workers[t := Worker(s.workers[t].env, s.workers[t].facts + e.facts, e.phase)],
                     db := if e.commits then Sql.Apply(s.db, Sql.Commit(t)) else s.db))
  {
    assert Unseal(0);
  }

  lemma Opening()
    ensures Leads(START, Offer("j", 0), At(CREATED, QUEUED, map[], map[], map[]))
    ensures Leads(At(CREATED, QUEUED, map[], map[], map[]), ClaimRow(0, K.T1, K.EARLY), Held1(CREATED, Entered))
  {
    K.Tokens();
  }

  lemma FirstMoves(b: Batch, phase: Phase, b': Batch, phase': Phase, outcome: Outcome)
    requires Whole(Yields(b, Worker(MEMBER, NONE, phase), D1, Step(K.T1, K.EARLY, outcome),
                          Effect(b', false, phase', [])))
    ensures Leads(Held1(b, phase), Step(K.T1, K.EARLY, outcome), Held1(b', phase'))
  {
    assert NONE + [] == [];
    PointLeads(Held1(b, phase), Step(K.T1, K.EARLY, outcome), Effect(b', false, phase', []));
  }

  lemma FirstRuns(outcome: Outcome, verdict: Phase)
    requires AfterExecute(D1, outcome) == verdict
    ensures Leads(Held1(CREATED, Entered), Step(K.T1, K.EARLY, outcome), Held1(CREATED, Starting))
    ensures Leads(Held1(CREATED, Starting), Step(K.T1, K.EARLY, outcome), Held1(STARTED, Execute))
    ensures Leads(Held1(STARTED, Execute), Step(K.T1, K.EARLY, outcome), Held1(STARTED, verdict))
  {
    MemberIsThere();
    FirstMoves(CREATED, Entered, CREATED, Starting, outcome);
    FirstMoves(CREATED, Starting, STARTED, Execute, outcome);
    FirstMoves(STARTED, Execute, STARTED, verdict, outcome);
  }

  /** The first settlement of the member, failed or succeeded, defers some facts and returns the handler's outcome. */
  lemma SettlementYields(started: Batch, b: Batch, r: SettleResult, verdict: Phase, outcome: Outcome)
    returns (facts: seq<Fact>)
    requires "j" in started.jobs && r.owned && r.claimedNow && r.receipt.Some?
    requires if outcome.Errored? then verdict == Failing(outcome.failure) else verdict == Succeeding
    requires SettleBatch(started, "j", if outcome.Errored? then MemberFailed else MemberSucceeded, CLAIM, K.EARLY)
             == (b, Ok(r))
    ensures Yields(started, Worker(MEMBER, NONE, verdict), D1, Step(K.T1, K.EARLY, outcome),
                   Effect(b, true, Returned(outcome, 0), facts))
  {
    facts := if outcome.Errored? then AfterFail(MEMBER, false, outcome.failure, r).1
             else AfterSuccess(MEMBER, false, 0, r).1;
  }

  lemma FirstSettles(verdict: Phase, b: Batch, facts: seq<Fact>, outcome: Outcome)
    requires Whole(Yields(STARTED, Worker(MEMBER, NONE, verdict), D1, Step(K.T1, K.EARLY, outcome),
                          Effect(b, true, Returned(outcome, 0), facts)))
    ensures Leads(Held1(STARTED, verdict), Step(K.T1, K.EARLY, outcome), Settled1(b, facts, outcome))
  {
    SettlingLeads(STARTED, verdict, b, facts, outcome);
  }

  lemma SettlingLeads(started: Batch, verdict: Phase, b: Batch, facts: seq<Fact>, outcome: Outcome)
    requires Whole(Yields(started, Worker(MEMBER, NONE, verdict), D1, Step(K.T1, K.EARLY, outcome),
                          Effect(b, true, Returned(outcome, 0), facts)))
    ensures Leads(Held1(started, verdict), Step(K.T1, K.EARLY, outcome), Settled1(b, facts, outcome))
  {
    assert NONE + facts == facts;
    PointLeads(Held1(started, verdict), Step(K.T1, K.EARLY, outcome), Effect(b, true, Returned(outcome, 0), facts));
  }

  lemma FirstVanishes(b: Batch, facts: seq<Fact>, outcome: Outcome)
    ensures Leads(Settled1(b, facts, outcome), Crash(K.T1), Abandoned(b))
    ensures Leads(Abandoned(b), Recover(K.LATER, K.LEASE), Recovered(b))
  {
    assert Sql.RecoverRows(map[0 := CLAIMED1], K.LATER, K.LEASE) == map[0 := STALE];
  }

  lemma SecondClaims(b: Batch)
    ensures Leads(Recovered(b), ClaimRow(0, K.T2, K.LATER), Held2(b, Entered))
  {
    K.Tokens();
  }

  function Checked(b: Batch): Phase {
    CheckReceipt(b.state, RunHandler)
  }

  /** What a check of the second delivery yields. */
  ghost predicate Checks(b: Batch, phase: Phase, phase': Phase) {
    Yields(b, Worker(MEMBER, NONE, phase), D2, Step(K.T2, K.LATER, Succeeded), Effect(b, false, phase', []))
  }

  /** The second delivery reads any well-formed state of the batch. */
  lemma SecondReads(b: Batch)
    requires b.state.batchId == "b" && b.state.dispatchId == "d" && RecoverableState(b.state)
    ensures Checks(b, Entered, CheckState(RunHandler)) && Checks(b, CheckState(RunHandler), Checked(b))
  {
  }

  /** Then it follows whatever its receipt check answers. */
  lemma SecondChecks(b: Batch, verdict: Phase)
    requires AfterCheckReceipt(b, true, MEMBER, 0, Provenance(K.T2, K.T1, true), b.state, RunHandler) == (verdict, [])
    ensures Checks(b, Checked(b), verdict)
  {
  }

  lemma SecondMoves(b: Batch, phase: Phase, phase': Phase)
    requires Whole(Checks(b, phase, phase'))
    ensures Leads(Held2(b, phase), Step(K.T2, K.LATER, Succeeded), Held2(b, phase'))
  {
    assert NONE + [] == [];
    PointLeads(Held2(b, phase), Step(K.T2, K.LATER, Succeeded), Effect(b, false, phase', []));
  }

  // ---------- Runs ----------

  /** No statement is lost and no store call fails: the faults left are vanished workers and recovered leases. */
  predicate Orderly(a: Action) {
    a.Work? ==> !a.input.storeDown && a.input.applied && a.input.acknowledged
  }

  predicate AllOrderly(actions: seq<Action>) {
    forall a :: a in actions ==> Orderly(a)
  }

  ghost predicate CanReach(s: System, end: System) {
    forall k :: Unseal(k) ==> exists actions :: IsRun(s, actions, end) && AllOrderly(actions)
  }

  lemma Here(s: System)
    ensures CanReach(s, s)
  {
    assert IsRun(s, [], s) && AllOrderly([]);
  }

  lemma Then(s: System, a: Action, mid: System, end: System)
    requires Leads(s, a, mid) && Orderly(a) && CanReach(mid, end)
    ensures CanReach(s, end)
  {
    assert Unseal(0);
    var actions :| IsRun(mid, actions, end) && AllOrderly(actions);
    assert ([a] + actions)[0] == a && ([a] + actions)[1..] == actions;
    assert IsRun(s, [a] + actions, end) && AllOrderly([a] + actions);
  }

  /** The second delivery enters and reads the batch and its receipt. */
  lemma CheckLegs(b: Batch, verdict: Phase, end: System)
    requires b.state.batchId == "b" && b.state.dispatchId == "d" && RecoverableState(b.state)
    requires AfterCheckReceipt(b, true, MEMBER, 0, Provenance(K.T2, K.T1, true), b.state, RunHandler) == (verdict, [])
    requires CanReach(Held2(b, verdict), end)
    ensures CanReach(Recovered(b), end)
  {
    var a := Step(K.T2, K.LATER, Succeeded);
    SecondReads(b);
    SecondChecks(b, verdict);
    SecondMoves(b, Checked(b), verdict);
    Then(Held2(b, Checked(b)), a, Held2(b, verdict), end);
    SecondMoves(b, CheckState(RunHandler), Checked(b));
    Then(Held2(b, CheckState(RunHandler)), a, Held2(b, Checked(b)), end);
    SecondMoves(b, Entered, CheckState(RunHandler));
    Then(Held2(b, Entered), a, Held2(b, CheckState(RunHandler)), end);
    SecondClaims(b);
    Then(Recovered(b), ClaimRow(0, K.T2, K.LATER), Held2(b, Entered), end);
  }

  /** The member is offered, and its first delivery runs the handler, settles the member and vanishes. */
  lemma FirstLegs(outcome: Outcome, verdict: Phase, b: Batch, facts: seq<Fact>, end: System)
    requires AfterExecute(D1, outcome) == verdict
    requires Leads(Held1(STARTED, verdict), Step(K.T1, K.EARLY, outcome), Settled1(b, facts, outcome))
    requires CanReach(Abandoned(b), end)
    ensures CanReach(START, end)
  {
    var a := Step(K.T1, K.EARLY, outcome);
    FirstVanishes(b, facts, outcome);
    Then(Settled1(b, facts, outcome), Crash(K.T1), Abandoned(b), end);
    Then(Held1(STARTED, verdict), a, Settled1(b, facts, outcome), end);
    FirstRuns(outcome, verdict);
    Then(Held1(STARTED, Execute), a, Held1(STARTED, verdict), end);
    Then(Held1(CREATED, Starting), a, Held1(STARTED, Execute), end);
    Then(Held1(CREATED, Entered), a, Held1(CREATED, Starting), end);
    Opening();
    Then(At(CREATED, QUEUED, map[], map[], map[]), ClaimRow(0, K.T1, K.EARLY), Held1(CREATED, Entered), end);
    Then(START, Offer("j", 0), At(CREATED, QUEUED, map[], map[], map[]), end);
  }
}
