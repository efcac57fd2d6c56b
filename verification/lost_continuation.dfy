/**
 Where the continuation guarantee ends: a run in which a lease is recovered under a running handler and the continuation
 of a committed node is lost. Nothing fails but the lease and one worker.
 */
module LostContinuation {
  import opened Common
  import opened Attempts
  import opened WorkflowTypes
  import opened ChainStore
  import opened Recovery
  import opened ChainEngine
  import opened ChainWitness
  import P = ChainProgress
  import Sql = SqlRows

  const RECORD := ChainRecord("c", "d", "", [FIRST, SECOND], 0)
  const RETRY := Failure("retry", false, false)
  const FATAL := Failure("fatal", true, false)

  // ---------- The states of the run ----------

  const FRESH := NewChain(RECORD, 0)
  const ADVANCED := Advanced(FRESH, LATER)

  const D2 := Sql.Delivery(0, T2, 0, 3, 0, true, T1, false)
  const D3 := Sql.Delivery(0, T3, 1, 3, 0, false, "", false)

  const RECOVERED := At(FRESH, map[], Row(Sql.Pending, 0, LATER, None, Some(T1)), map[T1 := D1], map[],
    map[T1 := W(Advancing)])

  /** The second delivery runs although the first is about to commit. */
  function Held2(phase: Phase): System {
    At(FRESH, map[], Row(Sql.Processing, 0, LATER, Some(LATER), Some(T2)), map[T1 := D1, T2 := D2], map[],
       map[T1 := W(Advancing), T2 := W(phase)])
  }

  const RETRIED := At(FRESH, map[], Row(Sql.Pending, 1, LATER, None, None), map[T1 := D1, T2 := D2], map[T2 := 1],
                      map[T1 := W(Advancing)])

  const MARKED := map[T1 := D1.(committed := true), T2 := D2]

  /** The first delivery committed its node; its receipt and facts play no part in what follows. */
  function Committed(r: Receipt, facts: seq<Fact>): System {
    At(ADVANCED, map[KEY := r], Row(Sql.Pending, 1, LATER, None, None), MARKED, map[T2 := 1],
       map[T1 := Worker(DELIVERY, facts, Dispatching(SECOND))])
  }

  function Vanished(r: Receipt): System {
    At(ADVANCED, map[KEY := r], Row(Sql.Pending, 1, LATER, None, None), MARKED, map[T2 := 1], map[])
  }

  /** The third delivery carries no provenance. */
  function Held3(r: Receipt, phase: Phase): System {
    At(ADVANCED, map[KEY := r], Row(Sql.Processing, 1, LATER, Some(LATER), Some(T3)), MARKED[T3 := D3], map[T2 := 1],
       map[T3 := W(phase)])
  }

  function Lost(r: Receipt): System {
    Vanished(r).(db := Sql.Db(map[], 1, MARKED[T3 := D3], map[T2 := 1, T3 := 1]))
  }

  // ---------- The steps of the run ----------

  lemma LeaseRecovered()
    ensures Leads(Held1(RECORD, Advancing), Recover(LATER, LEASE), RECOVERED)
    ensures Leads(RECOVERED, ClaimRow(0, T2, LATER), Held2(Entered))
  {
    Tokens();
    assert Sql.RecoverRows(Held1(RECORD, Advancing).db.rows, LATER, LEASE) == RECOVERED.db.rows;
  }

  lemma SecondDelivery()
    ensures Leads(Held2(Entered), Step(T2, LATER, Errored(RETRY)), Held2(CheckFailure(TrySuccess(RunHandler))))
    ensures Leads(Held2(CheckFailure(TrySuccess(RunHandler))), Step(T2, LATER, Errored(RETRY)),
                  Held2(CheckSuccess(RunHandler)))
    ensures Leads(Held2(Execute), Step(T2, LATER, Errored(RETRY)), Held2(Returned(Errored(RETRY), 0)))
  {
    Tokens();
    assert NONE + [] == [];
  }

  lemma SecondChecks()
    ensures Leads(Held2(CheckSuccess(RunHandler)), Step(T2, LATER, Errored(RETRY)), Held2(Execute))
  {
    Tokens();
    assert NONE + [] == [];
    PositionOfNode([FIRST, SECOND], 0);
    DispositionsPartition(FRESH, 0);
  }

  lemma SecondSettles()
    ensures Leads(Held2(Returned(Errored(RETRY), 0)), Step(T2, LATER, Errored(RETRY)), RETRIED)
  {
    Tokens();
    var s := Held2(Returned(Errored(RETRY), 0));
    assert Publications(W(Returned(Errored(RETRY), 0)), T2) == {};
    assert s.workers - {T2} == map[T1 := W(Advancing)];
  }

  lemma FirstAdvances() returns (tr: Transition<AdvanceResult>)
    ensures T1 in RETRIED.workers && T1 in RETRIED.db.deliveries && tr == AdvanceCall(RETRIED, T1, LATER)
    ensures tr.state == ADVANCED && tr.written.Some?
    ensures tr.result == Ok(AdvanceResult(ADVANCED, Some(SECOND), false, true, true, tr.written))
  {
    tr := AdvanceCall(RETRIED, T1, LATER);
    PositionOfNode([FIRST, SECOND], 0);
    DispositionsPartition(FRESH, 0);
    Tokens();
  }

  lemma CommitInstalls(r: Receipt, facts: seq<Fact>)
    ensures T1 in RETRIED.workers && T1 in RETRIED.db.deliveries
    ensures RETRIED.workers[T1] == W(Advancing) && RETRIED.db.deliveries[T1] == D1 && "c" in RETRIED.chains
    ensures Commit(RETRIED, T1, ADVANCED, Some(r), true, Dispatching(SECOND), facts) == Committed(r, facts)
  {
    Tokens();
    assert NONE + facts == facts;
  }

  lemma FirstCommits() returns (r: Receipt, facts: seq<Fact>)
    ensures Leads(RETRIED, Step(T1, LATER, Succeeded), Committed(r, facts))
  {
    var tr := FirstAdvances();
    var next := AfterAdvance(DELIVERY, 0, false, tr.result.value);
    r, facts := tr.written.value, next.1;
    CommitInstalls(r, facts);
    AdvanceLeads(RETRIED, T1, LATER, tr);
  }

  lemma FailLeads(s: System, t: string, cause: Failure, tr: Transition<FailResult>)
    requires t in s.workers && t in s.db.deliveries && s.workers[t].phase == Failing(cause)
    requires s.workers[t].env.chainId in s.chains && tr == FailCall(s, t, cause, LATER) && tr.result.Ok?
    ensures var d, r := s.db.deliveries[t], tr.result.value;
            Leads(s, Step(t, LATER, Errored(cause)),
                  Commit(s, t, tr.state, tr.written, r.claimedNow && r.receipt.Some?,
                         AfterFail(d.recovered, cause, r), []))
  {
  }

  lemma FirstVanishes(r: Receipt, facts: seq<Fact>)
    ensures Leads(Committed(r, facts), Crash(T1), Vanished(r))
  {
  }

  lemma ThirdClaims(r: Receipt)
    ensures Leads(Vanished(r), ClaimRow(0, T3, LATER), Held3(r, Entered))
  {
    Tokens();
  }

  lemma ThirdEnters(r: Receipt)
    ensures Leads(Held3(r, Entered), Step(T3, LATER, Errored(FATAL)), Held3(r, Execute))
  {
    ThirdMoves(r, Entered, Execute);
    PointLeads(Held3(r, Entered), T3, LATER, Errored(FATAL), (Execute, []));
  }

  lemma ThirdMoves(r: Receipt, phase: Phase, phase': Phase)
    ensures T3 in Held3(r, phase).workers && Move(Held3(r, phase), T3, phase', []) == Held3(r, phase')
  {
    assert NONE + [] == [];
  }

  lemma ThirdRuns(r: Receipt)
    ensures Leads(Held3(r, Execute), Step(T3, LATER, Errored(FATAL)), Held3(r, Failing(FATAL)))
  {
    ThirdMoves(r, Execute, Failing(FATAL));
    PointLeads(Held3(r, Execute), T3, LATER, Errored(FATAL), (Failing(FATAL), []));
  }

  /** The node already succeeded, so its failure is not owned and nothing is stored. */
  lemma FailureIsDisowned(r: Receipt, claim: Claim)
    requires claim.dispatchId == "d"
    ensures FailChainNode(ADVANCED, Some(r), "a", Some(FATAL.text), claim, LATER)
            == Transition(ADVANCED, None, Ok(FailResult(ADVANCED, false, false, Some(r))))
  {
    PositionOfNode([FIRST, SECOND], 0);
    DispositionsPartition(ADVANCED, 0);
  }

  lemma NothingInstalled(r: Receipt)
    ensures var s := Held3(r, Failing(FATAL));
            && T3 in s.workers && T3 in s.db.deliveries && s.workers[T3] == W(Failing(FATAL))
            && s.db.deliveries[T3] == D3 && "c" in s.chains
            && Commit(s, T3, ADVANCED, None, false, Returned(Succeeded, 0), []) == Held3(r, Returned(Succeeded, 0))
  {
    assert NONE + [] == [];
  }

  lemma ThirdCalls(r: Receipt) returns (tr: Transition<FailResult>)
    ensures var s := Held3(r, Failing(FATAL));
            && T3 in s.workers && T3 in s.db.deliveries && "c" in s.chains
            && s.workers[T3] == W(Failing(FATAL)) && tr == FailCall(s, T3, FATAL, LATER)
    ensures tr == Transition(ADVANCED, None, Ok(FailResult(ADVANCED, false, false, Some(r))))
  {
    FailureIsDisowned(r, ClaimOf(DELIVERY, 1, T3));
    tr := FailCall(Held3(r, Failing(FATAL)), T3, FATAL, LATER);
  }

  lemma ThirdFails(r: Receipt)
    ensures Leads(Held3(r, Failing(FATAL)), Step(T3, LATER, Errored(FATAL)), Held3(r, Returned(Succeeded, 0)))
  {
    var tr := ThirdCalls(r);
    NothingInstalled(r);
    FailLeads(Held3(r, Failing(FATAL)), T3, FATAL, tr);
  }

  lemma ThirdSettles(r: Receipt)
    ensures Leads(Held3(r, Returned(Succeeded, 0)), Step(T3, LATER, Errored(FATAL)), Lost(r))
  {
    Tokens();
    assert Publications(W(Returned(Succeeded, 0)), T3) == {};
    assert Held3(r, Returned(Succeeded, 0)).workers - {T3} == map[];
    assert Held3(r, Returned(Succeeded, 0)).db.rows - {0} == map[];
  }

  // ---------- The run ----------

  lemma LastLegs(r: Receipt)
    ensures CanReach(Leases, Vanished(r), Lost(r))
  {
    Here(Leases, Lost(r));
    ThirdSettles(r);
    Then(Leases, Held3(r, Returned(Succeeded, 0)), Step(T3, LATER, Errored(FATAL)), Lost(r), Lost(r));
    ThirdFails(r);
    Then(Leases, Held3(r, Failing(FATAL)), Step(T3, LATER, Errored(FATAL)), Held3(r, Returned(Succeeded, 0)), Lost(r));
    ThirdRuns(r);
    Then(Leases, Held3(r, Execute), Step(T3, LATER, Errored(FATAL)), Held3(r, Failing(FATAL)), Lost(r));
    ThirdEnters(r);
    Then(Leases, Held3(r, Entered), Step(T3, LATER, Errored(FATAL)), Held3(r, Execute), Lost(r));
    ThirdClaims(r);
    Then(Leases, Vanished(r), ClaimRow(0, T3, LATER), Held3(r, Entered), Lost(r));
  }

  lemma CommitLegs() returns (r: Receipt)
    ensures CanReach(Leases, Held2(Execute), Lost(r))
  {
    var facts;
    r, facts := FirstCommits();
    LastLegs(r);
    FirstVanishes(r, facts);
    Then(Leases, Committed(r, facts), Crash(T1), Vanished(r), Lost(r));
    Then(Leases, RETRIED, Step(T1, LATER, Succeeded), Committed(r, facts), Lost(r));
    SecondSettles();
    Then(Leases, Held2(Returned(Errored(RETRY), 0)), Step(T2, LATER, Errored(RETRY)), RETRIED, Lost(r));
    SecondDelivery();
    Then(Leases, Held2(Execute), Step(T2, LATER, Errored(RETRY)), Held2(Returned(Errored(RETRY), 0)), Lost(r));
  }

  lemma OverlapLegs(end: System)
    requires CanReach(Leases, Held2(Execute), end)
    ensures CanReach(Leases, Held1(RECORD, Advancing), end)
  {
    var failure, success := CheckFailure(TrySuccess(RunHandler)), CheckSuccess(RunHandler);
    SecondChecks();
    Then(Leases, Held2(success), Step(T2, LATER, Errored(RETRY)), Held2(Execute), end);
    SecondDelivery();
    Then(Leases, Held2(failure), Step(T2, LATER, Errored(RETRY)), Held2(success), end);
    Then(Leases, Held2(Entered), Step(T2, LATER, Errored(RETRY)), Held2(failure), end);
    LeaseRecovered();
    Then(Leases, RECOVERED, ClaimRow(0, T2, LATER), Held2(Entered), end);
    Then(Leases, Held1(RECORD, Advancing), Recover(LATER, LEASE), RECOVERED, end);
  }

  lemma LostIsNotCarried(r: Receipt)
    ensures "c" in Lost(r).ledger && Live(Lost(r).ledger["c"]) && !P.Carried(Lost(r), "c")
  {
  }

  /**
   A live chain can lose its continuation under the default lease: some run from the empty system, in which every
   statement is applied and acknowledged, ends with a chain that is neither completed nor failed although nothing
   queued or running will ever deliver its current node.
   */
  lemma OverlappingLeasesCanLoseContinuation()
    ensures exists actions, s :: Initial(EMPTY) && IsRun(EMPTY, actions, s) && AllWithin(Leases, actions)
              && "c" in s.ledger && Live(s.ledger["c"]) && !P.Carried(s, "c")
              && s.db.rows == map[] && s.workers == map[] && s.starting == map[]
  {
    var r := CommitLegs();
    OverlapLegs(Lost(r));
    FirstLegs(Leases, RECORD, Lost(r));
    LostIsNotCarried(r);
    assert Unseal(0);
    var actions :| IsRun(EMPTY, actions, Lost(r)) && AllWithin(Leases, actions);
    assert Initial(EMPTY);
  }
}
