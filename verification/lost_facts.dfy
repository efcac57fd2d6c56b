/**
 Where fact publication ends: two runs of a one-node chain that completes with a success receipt although neither of its
 facts is ever published. In one only settlement replies are lost; in the other only workers and leases.
 */
module LostFacts {
  import opened Common
  import opened Attempts
  import opened WorkflowTypes
  import opened ChainStore
  import opened Recovery
  import opened ChainEngine
  import opened ChainWitness
  import Sql = SqlRows

  const RECORD := ChainRecord("c", "d", "", [FIRST], 0)
  const FRESH := NewChain(RECORD, 0)
  const DONE := Advanced(FRESH, EARLY)
  const MARKED := D1.(committed := true)

  /** The first delivery committed the chain and holds its facts. */
  function Settling(r: Receipt, facts: seq<Fact>, tries: nat): System {
    At(DONE, map[KEY := r], Row(Sql.Processing, 0, 0, Some(EARLY), Some(T1)), map[T1 := MARKED], map[],
       map[T1 := Worker(DELIVERY, facts, Returned(Succeeded, tries))])
  }

  predicate OwnedByFirst(r: Receipt) {
    && r == Receipt(RECEIPT_VERSION, EVENT_SCHEMA_VERSION, ChainKind, "c", "d", 0, "a", MemberSucceeded,
                    ClaimOf(DELIVERY, 0, T1), true, false)
    && r.owner.Valid()
  }

  /** The only node of the chain commits and completes it. */
  lemma ChainCompletes(claim: Claim)
    requires claim.Valid() && claim.dispatchId == "d"
    ensures var r := Receipt(RECEIPT_VERSION, EVENT_SCHEMA_VERSION, ChainKind, "c", "d", 0, "a", MemberSucceeded, claim,
                             true, false);
            AdvanceChain(FRESH, None, "a", claim, EARLY)
            == Transition(DONE, Some(r), Ok(AdvanceResult(DONE, None, true, true, true, Some(r))))
  {
    PositionOfNode([FIRST], 0);
    DispositionsPartition(FRESH, 0);
  }

  lemma ClaimIsValid()
    ensures ClaimOf(DELIVERY, 0, T1).Valid()
  {
    Tokens();
  }

  lemma FirstAdvances() returns (tr: Transition<AdvanceResult>)
    ensures var s := Held1(RECORD, Advancing);
            T1 in s.workers && T1 in s.db.deliveries && "c" in s.chains && tr == AdvanceCall(s, T1, EARLY)
    ensures tr.state == DONE && tr.written.Some? && OwnedByFirst(tr.written.value)
    ensures tr.result == Ok(AdvanceResult(DONE, None, true, true, true, tr.written))
  {
    ClaimIsValid();
    ChainCompletes(ClaimOf(DELIVERY, 0, T1));
    tr := AdvanceCall(Held1(RECORD, Advancing), T1, EARLY);
  }

  lemma CommitInstalls(r: Receipt, facts: seq<Fact>)
    ensures var s := Held1(RECORD, Advancing);
            && T1 in s.workers && T1 in s.db.deliveries && s.workers[T1] == W(Advancing) && s.db.deliveries[T1] == D1
            && Commit(s, T1, DONE, Some(r), true, Returned(Succeeded, 0), facts) == Settling(r, facts, 0)
  {
    assert NONE + facts == facts;
  }

  /** The last node of a completed chain returns with its facts. */
  lemma CompletionReturns(env: Envelope, attempt: int, r: AdvanceResult)
    requires r.claimedNow && r.done && r.state.completed
    requires Position(r.state.nodes, env.nodeId) == Some(|r.state.nodes| - 1)
    ensures AfterAdvance(env, attempt, false, r).0 == Returned(Succeeded, 0)
  {
  }

  lemma FirstReturns(tr: Transition<AdvanceResult>) returns (facts: seq<Fact>)
    requires tr.written.Some? && tr.result == Ok(AdvanceResult(DONE, None, true, true, true, tr.written))
    ensures AfterAdvance(DELIVERY, 0, false, tr.result.value) == (Returned(Succeeded, 0), facts)
  {
    PositionOfNode([FIRST], 0);
    CompletionReturns(DELIVERY, 0, tr.result.value);
    facts := AfterAdvance(DELIVERY, 0, false, tr.result.value).1;
  }

  lemma FirstCommits() returns (r: Receipt, facts: seq<Fact>)
    ensures Leads(Held1(RECORD, Advancing), Step(T1, EARLY, Succeeded), Settling(r, facts, 0)) && OwnedByFirst(r)
  {
    var tr := FirstAdvances();
    r := tr.written.value;
    facts := FirstReturns(tr);
    CommitInstalls(r, facts);
    AdvanceLeads(Held1(RECORD, Advancing), T1, EARLY, tr);
  }

  // ---------- Lost replies ----------

  /** The settlement has removed the row, but its worker was told that it failed. */
  function Unheard(r: Receipt, facts: seq<Fact>, tries: nat): System {
    At(DONE, map[KEY := r], Row(Sql.Pending, 0, 0, None, None), map[T1 := MARKED], map[], map[])
      .(db := Sql.Db(map[], 1, map[T1 := MARKED], map[T1 := 1]),
        workers := map[T1 := Worker(DELIVERY, facts, Returned(Succeeded, tries))])
  }

  function Silent(r: Receipt): System {
    Unheard(r, [], 0).(workers := map[])
  }

  lemma RowSettled(rows: map<nat, Sql.Row<Envelope>>, settled: map<string, nat>)
    requires rows == map[0 := Row(Sql.Processing, 0, 0, Some(EARLY), Some(T1))] && settled == map[]
    ensures Sql.Apply(Sql.Db(rows, 1, map[T1 := MARKED], settled), Sql.Settle(T1, Succeeded, EARLY))
            == Sql.Db(map[], 1, map[T1 := MARKED], map[T1 := 1])
  {
    assert rows - {0} == map[];
  }

  lemma NothingSettled()
    ensures var db := Sql.Db(map[], 1, map[T1 := MARKED], map[T1 := 1]);
            Sql.Apply<Envelope>(db, Sql.Settle(T1, Succeeded, EARLY)) == db
  {
  }

  lemma ReplyLost(r: Receipt, facts: seq<Fact>)
    ensures Leads(Settling(r, facts, 0), StepWith(T1, EARLY, Succeeded, false), Unheard(r, facts, 1))
  {
    RowSettled(Settling(r, facts, 0).db.rows, map[]);
    assert facts + [] == facts;
    UnheardLeads(Settling(r, facts, 0), T1, EARLY, 0);
  }

  lemma RetryFindsNothing(r: Receipt, facts: seq<Fact>, tries: nat)
    requires 0 < tries < 3
    ensures Leads(Unheard(r, facts, tries), StepWith(T1, EARLY, Succeeded, false), Unheard(r, facts, tries + 1))
  {
    NothingSettled();
    assert facts + [] == facts;
    UnheardLeads(Unheard(r, facts, tries), T1, EARLY, tries);
  }

  lemma RepairFindsNothing(r: Receipt, facts: seq<Fact>)
    ensures Leads(Unheard(r, facts, 3), StepWith(T1, EARLY, Succeeded, false), Silent(r))
  {
    assert Unheard(r, facts, 3).workers - {T1} == map[];
  }

  /** A completed chain whose owner receipt stands, with nothing published, queued or running. */
  predicate Mute(s: System) {
    && "c" in s.ledger && s.ledger["c"].completed && KEY in s.owners && s.owners[KEY].outcome == MemberSucceeded
    && s.published == {} && s.db.rows == map[] && s.workers == map[] && s.starting == map[]
  }

  lemma ReplyLegs(r: Receipt, facts: seq<Fact>)
    ensures CanReach(Replies, Settling(r, facts, 0), Silent(r))
  {
    var a := StepWith(T1, EARLY, Succeeded, false);
    Here(Replies, Silent(r));
    RepairFindsNothing(r, facts);
    Then(Replies, Unheard(r, facts, 3), a, Silent(r), Silent(r));
    RetryFindsNothing(r, facts, 2);
    Then(Replies, Unheard(r, facts, 2), a, Unheard(r, facts, 3), Silent(r));
    RetryFindsNothing(r, facts, 1);
    Then(Replies, Unheard(r, facts, 1), a, Unheard(r, facts, 2), Silent(r));
    ReplyLost(r, facts);
    Then(Replies, Settling(r, facts, 0), a, Unheard(r, facts, 1), Silent(r));
  }

  /** A run of the given kind that ends mute. */
  ghost predicate CanFallMute(f: Faults) {
    exists actions, s :: Initial(EMPTY) && IsRun(EMPTY, actions, s) && AllWithin(f, actions) && Mute(s)
  }

  lemma FallsMute(f: Faults, end: System)
    requires Whole(CanReach(f, EMPTY, end) && Mute(end))
    ensures CanFallMute(f)
  {
    assert Unseal(0);
    var actions :| IsRun(EMPTY, actions, end) && AllWithin(f, actions);
    assert Initial(EMPTY);
  }

  lemma SilentIsMute(r: Receipt)
    requires OwnedByFirst(r)
    ensures Mute(Silent(r))
  {
  }

  lemma CommitLegs(f: Faults, r: Receipt, facts: seq<Fact>, end: System)
    requires Leads(Held1(RECORD, Advancing), Step(T1, EARLY, Succeeded), Settling(r, facts, 0))
    requires CanReach(f, Settling(r, facts, 0), end)
    ensures CanReach(f, EMPTY, end)
  {
    Then(f, Held1(RECORD, Advancing), Step(T1, EARLY, Succeeded), Settling(r, facts, 0), end);
    FirstLegs(f, RECORD, end);
  }

  /** Lost settlement replies alone can lose the facts of a committed node. */
  lemma LostReplyLosesFacts()
    ensures Whole(CanFallMute(Replies))
  {
    var r, facts := FirstCommits();
    ReplyLegs(r, facts);
    CommitLegs(Replies, r, facts, Silent(r));
    SilentIsMute(r);
    FallsMute(Replies, Silent(r));
  }

  // ---------- A second stale lease ----------

  const D2 := Sql.Delivery(0, T2, 0, 3, 0, true, T1, false)
  const D3 := Sql.Delivery(0, T3, 0, 3, 0, true, T2, false)

  function Idle(r: Receipt, row: Sql.Row<Envelope>, deliveries: map<string, Sql.Delivery>): System {
    At(DONE, map[KEY := r], row, deliveries, map[], map[])
  }

  const CLAIMED1 := Row(Sql.Processing, 0, 0, Some(EARLY), Some(T1))
  const STALE1 := Row(Sql.Pending, 0, LATER, None, Some(T1))
  const CLAIMED2 := Row(Sql.Processing, 0, LATER, Some(LATER), Some(T2))
  const STALE2 := Row(Sql.Pending, 0, LAST, None, Some(T2))
  const CLAIMED3 := Row(Sql.Processing, 0, LAST, Some(LAST), Some(T3))
  const ONE := map[T1 := MARKED]
  const TWO := map[T1 := MARKED, T2 := D2]
  const THREE := map[T1 := MARKED, T2 := D2, T3 := D3]

  function Held3(r: Receipt, phase: Phase): System {
    Idle(r, CLAIMED3, THREE).(workers := map[T3 := W(phase)])
  }

  function Forgotten(r: Receipt): System {
    Idle(r, CLAIMED3, THREE).(db := Sql.Db(map[], 1, THREE, map[T3 := 1]))
  }

  lemma FirstVanishes(r: Receipt, facts: seq<Fact>)
    ensures Leads(Settling(r, facts, 0), Crash(T1), Idle(r, CLAIMED1, ONE))
    ensures Leads(Idle(r, CLAIMED1, ONE), Recover(LATER, LEASE), Idle(r, STALE1, ONE))
  {
    assert Sql.RecoverRows(map[0 := CLAIMED1], LATER, LEASE) == map[0 := STALE1];
  }

  lemma SecondClaims(r: Receipt)
    ensures Leads(Idle(r, STALE1, ONE), ClaimRow(0, T2, LATER),
                  Idle(r, CLAIMED2, TWO).(workers := map[T2 := W(Entered)]))
  {
    Tokens();
  }

  lemma SecondVanishes(r: Receipt)
    ensures Leads(Idle(r, CLAIMED2, TWO).(workers := map[T2 := W(Entered)]), Crash(T2), Idle(r, CLAIMED2, TWO))
    ensures Leads(Idle(r, CLAIMED2, TWO), Recover(LAST, LEASE), Idle(r, STALE2, TWO))
  {
    assert map[T2 := W(Entered)] - {T2} == map[];
    assert Sql.RecoverRows(map[0 := CLAIMED2], LAST, LEASE) == map[0 := STALE2];
  }

  lemma ThirdClaims(r: Receipt)
    ensures Leads(Idle(r, STALE2, TWO), ClaimRow(0, T3, LAST), Held3(r, Entered))
  {
    Tokens();
  }

  const CHECK := CheckFailure(TrySuccess(RunHandler))

  ghost predicate Reads(r: Receipt, phase: Phase, phase': Phase) {
    Points(map["c" := DONE], map[KEY := r], W(phase), D3, Step(T3, LAST, Succeeded).input, (phase', []))
  }

  /**
   The checks of the third delivery find the success. Its receipt is owned by the first generation, but the third
   inherits only the second.
   */
  lemma ThirdReads(r: Receipt)
    requires OwnedByFirst(r)
    ensures Reads(r, Entered, CHECK) && Reads(r, CHECK, CheckSuccess(RunHandler))
    ensures Reads(r, CheckSuccess(RunHandler), SuccessReceipt(DONE, RunHandler))
    ensures Reads(r, SuccessReceipt(DONE, RunHandler), Returned(Succeeded, 0))
  {
    FindsSuccess();
    ReceiptIsForeign(r);
  }

  lemma FindsSuccess()
    ensures AfterCheckFailure(map["c" := DONE], DELIVERY, TrySuccess(RunHandler)) == CheckSuccess(RunHandler)
    ensures AfterCheckSuccess(map["c" := DONE], DELIVERY, RunHandler) == SuccessReceipt(DONE, RunHandler)
  {
    PositionOfNode([FIRST], 0);
    DispositionsPartition(DONE, 0);
  }

  lemma ReceiptIsForeign(r: Receipt)
    requires OwnedByFirst(r)
    ensures AfterSuccessReceipt(map["c" := DONE], map[KEY := r], DELIVERY, 0, ProvenanceOf(D3), DONE)
            == (Returned(Succeeded, 0), [])
  {
    Tokens();
    PositionOfNode([FIRST], 0);
  }

  lemma ThirdMoves(r: Receipt, phase: Phase, phase': Phase)
    requires Whole(Reads(r, phase, phase'))
    ensures Leads(Held3(r, phase), Step(T3, LAST, Succeeded), Held3(r, phase'))
  {
    assert NONE + [] == [];
    assert THREE[T3] == D3;
    PointLeads(Held3(r, phase), T3, LAST, Succeeded, (phase', []));
  }

  lemma ThirdSettles(r: Receipt)
    ensures Leads(Held3(r, Returned(Succeeded, 0)), Step(T3, LAST, Succeeded), Forgotten(r))
  {
    Tokens();
    assert Publications(W(Returned(Succeeded, 0)), T3) == {};
    assert Held3(r, Returned(Succeeded, 0)).workers - {T3} == map[];
    assert map[0 := CLAIMED3] - {0} == map[];
  }

  lemma ThirdLegs(r: Receipt)
    requires OwnedByFirst(r)
    ensures CanReach(Leases, Held3(r, Entered), Forgotten(r))
  {
    var a := Step(T3, LAST, Succeeded);
    Here(Leases, Forgotten(r));
    ThirdSettles(r);
    Then(Leases, Held3(r, Returned(Succeeded, 0)), a, Forgotten(r), Forgotten(r));
    ThirdReads(r);
    ThirdMoves(r, SuccessReceipt(DONE, RunHandler), Returned(Succeeded, 0));
    Then(Leases, Held3(r, SuccessReceipt(DONE, RunHandler)), a, Held3(r, Returned(Succeeded, 0)), Forgotten(r));
    ThirdMoves(r, CheckSuccess(RunHandler), SuccessReceipt(DONE, RunHandler));
    Then(Leases, Held3(r, CheckSuccess(RunHandler)), a, Held3(r, SuccessReceipt(DONE, RunHandler)), Forgotten(r));
    ThirdMoves(r, CHECK, CheckSuccess(RunHandler));
    Then(Leases, Held3(r, CHECK), a, Held3(r, CheckSuccess(RunHandler)), Forgotten(r));
    ThirdMoves(r, Entered, CHECK);
    Then(Leases, Held3(r, Entered), a, Held3(r, CHECK), Forgotten(r));
  }

  lemma LeaseLegs(r: Receipt, facts: seq<Fact>)
    requires OwnedByFirst(r)
    ensures CanReach(Leases, Settling(r, facts, 0), Forgotten(r))
  {
    var end, held2 := Forgotten(r), Idle(r, CLAIMED2, TWO).(workers := map[T2 := W(Entered)]);
    ThirdLegs(r);
    ThirdClaims(r);
    Then(Leases, Idle(r, STALE2, TWO), ClaimRow(0, T3, LAST), Held3(r, Entered), end);
    SecondVanishes(r);
    Then(Leases, Idle(r, CLAIMED2, TWO), Recover(LAST, LEASE), Idle(r, STALE2, TWO), end);
    Then(Leases, held2, Crash(T2), Idle(r, CLAIMED2, TWO), end);
    SecondClaims(r);
    Then(Leases, Idle(r, STALE1, ONE), ClaimRow(0, T2, LATER), held2, end);
    FirstVanishes(r, facts);
    Then(Leases, Idle(r, CLAIMED1, ONE), Recover(LATER, LEASE), Idle(r, STALE1, ONE), end);
    Then(Leases, Settling(r, facts, 0), Crash(T1), Idle(r, CLAIMED1, ONE), end);
  }

  /**
   Two vanished workers in a row can lose the facts of a committed node although every statement is applied and
   acknowledged: the second recovery replaces the owner's generation in the row's lineage.
   */
  lemma SecondStaleLeaseLosesFacts()
    ensures Whole(CanFallMute(Leases))
  {
    var r, facts := FirstCommits();
    LeaseLegs(r, facts);
    CommitLegs(Leases, r, facts, Forgotten(r));
    ForgottenIsMute(r);
    FallsMute(Leases, Forgotten(r));
  }

  lemma ForgottenIsMute(r: Receipt)
    requires OwnedByFirst(r)
    ensures Mute(Forgotten(r))
  {
  }
}
