/** What one action may change: one queue statement at most, a growing history, and only the acting worker. */
module ChainFrames {
  import opened Common
  import opened Attempts
  import opened WorkflowTypes
  import opened ChainStore
  import opened Recovery
  import opened ChainEngine
  import opened ChainInvariant
  import opened QueueFrames
  import opened ChainSafety
  import Sql = SqlRows

  // ---------- The queue statement of an action ----------

  type Statement = Option<Sql.Step<Envelope>>

  function MarkOf<R>(t: string, result: Result<R>, claimed: bool): Statement {
    if result.Ok? && claimed then Some(Sql.Commit(t)) else None
  }

  function InsertOf(env: Envelope, reply: Reply, now: int): Statement {
    if Inserts(env, reply) then Some(RowOf(env, now)) else None
  }

  function WorkStatement(s: System, t: string, input: Input): Statement
    requires t in s.workers && t in s.db.deliveries
  {
    var env := s.workers[t].env;
    match s.workers[t].phase
    case Failing(cause) =>
      if input.storeDown || env.chainId !in s.chains then None
      else
        var result := FailCall(s, t, cause, input.now).result;
        MarkOf(t, result, result.Ok? && result.value.claimedNow && result.value.receipt.Some?)
    case Advancing =>
      if input.storeDown || env.chainId !in s.chains then None
      else
        var result := AdvanceCall(s, t, input.now).result;
        MarkOf(t, result, result.Ok? && result.value.claimedNow && result.value.receipt.Some?)
    case Dispatching(node) =>
      InsertOf(NodeEnvelope(env.dispatchId, env.chainId, node, input.jobId), input.reply, input.now)
    case Returned(outcome, tries) =>
      if !input.applied then None
      else if tries < Sql.FINALIZE_RETRY_COUNT then Some(Sql.Settle(t, outcome, input.now))
      else Some(Sql.Restore(t, input.now))
    case _ => None
  }

  function StatementOf(s: System, a: Action): Statement
    requires Enabled(s, a)
  {
    match a
    case Start(chainId, jobId, reply, now) =>
      var st := s.chains[chainId];
      InsertOf(NodeEnvelope(st.dispatchId, chainId, st.nodes[0], jobId), reply, now)
    case ClaimRow(id, token, now) => Some(Sql.Claim(id, token, now))
    case Recover(now, cfg) => Some(Sql.RecoverStale(now, cfg))
    case Work(token, input) => WorkStatement(s, token, input)
    case _ => None
  }

  function After(db: Db, statement: Statement): Db
    requires statement.Some? ==> Sql.Enabled(db, statement.value)
  {
    if statement.Some? then Sql.Apply(db, statement.value) else db
  }

  /** The delivery commits its node now. */
  predicate Advances(s: System, t: string, input: Input) {
    && t in s.workers && t in s.db.deliveries && s.workers[t].phase == Advancing
    && !input.storeDown && s.workers[t].env.chainId in s.chains
    && AdvanceCall(s, t, input.now).result.Ok? && AdvanceCall(s, t, input.now).result.value.claimedNow
  }

  /** One worker acts: at most one statement runs, no other worker moves, and the worker keeps its deferred facts. */
  predicate Acts(s: System, s': System, t: string, statement: Statement) {
    && (statement.Some? ==> Sql.Enabled(s.db, statement.value))
    && s'.db == After(s.db, statement)
    && (forall u :: u in s.workers && u != t ==> u in s'.workers && s'.workers[u] == s.workers[u])
    && (forall u :: u in s'.workers ==> u in s.workers)
    && s'.starting == s.starting
    && (t in s.workers && t in s'.workers ==>
          s'.workers[t].env == s.workers[t].env && s.workers[t].facts <= s'.workers[t].facts)
  }

  lemma MoveActs(s: System, t: string, phase: Phase, facts: seq<Fact>)
    requires t in s.workers
    ensures Acts(s, Move(s, t, phase, facts), t, None)
  {
  }

  lemma CommitActs(
      s: System, t: string, st: ChainState, written: Option<Receipt>, mark: bool, phase: Phase, facts: seq<Fact>)
    requires t in s.workers && t in s.db.deliveries
    ensures Acts(s, Commit(s, t, st, written, mark, phase, facts), t, if mark then Some(Sql.Commit(t)) else None)
  {
  }

  lemma FailActs(s: System, t: string, input: Input, cause: Failure)
    requires t in s.workers && t in s.db.deliveries && s.workers[t].phase == Failing(cause)
    ensures Whole(Acts(s, FailStep(s, t, input, cause), t, WorkStatement(s, t, input)))
  {
    MoveActs(s, t, Refused("fail chain"), []);
    if !input.storeDown && s.workers[t].env.chainId in s.chains {
      var tr := FailCall(s, t, cause, input.now);
      if tr.result.Ok? {
        var r := tr.result.value;
        CommitActs(s, t, tr.state, tr.written, r.claimedNow && r.receipt.Some?,
                   AfterFail(s.db.deliveries[t].recovered, cause, r), []);
      }
    }
  }

  lemma AdvanceActs(s: System, t: string, input: Input)
    requires t in s.workers && t in s.db.deliveries && s.workers[t].phase == Advancing
    ensures Whole(Acts(s, AdvanceStep(s, t, input), t, WorkStatement(s, t, input)))
  {
    MoveActs(s, t, Refused("advance chain"), []);
    if !input.storeDown && s.workers[t].env.chainId in s.chains {
      var tr, d := AdvanceCall(s, t, input.now), s.db.deliveries[t];
      if tr.result.Ok? {
        var r := tr.result.value;
        var next := AfterAdvance(s.workers[t].env, d.attempt, d.recovered, r);
        CommitActs(s, t, tr.state, tr.written, r.claimedNow && r.receipt.Some?, next.0, next.1);
      }
    }
  }

  lemma DispatchActs(s: System, t: string, input: Input, node: ChainNode)
    requires t in s.workers && t in s.db.deliveries && s.workers[t].phase == Dispatching(node)
    ensures Acts(s, DispatchStep(s, t, input, node), t, WorkStatement(s, t, input))
  {
  }

  lemma SettleWorkers(s: System, t: string, input: Input, outcome: Outcome, tries: nat)
    requires t in s.workers && t in s.db.deliveries
    ensures var s' := SettleStep(s, t, input, outcome, tries);
            && s'.starting == s.starting && s'.ledger == s.ledger && s'.owners == s.owners
            && (|| s'.workers == s.workers - {t}
                || s'.workers
                   == s.workers[t := Worker(s.workers[t].env, s.workers[t].facts, Returned(outcome, tries + 1))])
  {
    assert s.workers[t].facts + [] == s.workers[t].facts;
  }

  lemma SettleDb(s: System, t: string, input: Input, outcome: Outcome, tries: nat)
    requires t in s.workers && t in s.db.deliveries && s.workers[t].phase == Returned(outcome, tries)
    ensures SettleStep(s, t, input, outcome, tries).db == After(s.db, WorkStatement(s, t, input))
  {
  }

  lemma SettleActs(s: System, t: string, input: Input, outcome: Outcome, tries: nat)
    requires t in s.workers && t in s.db.deliveries && s.workers[t].phase == Returned(outcome, tries)
    ensures Whole(Acts(s, SettleStep(s, t, input, outcome, tries), t, WorkStatement(s, t, input)))
  {
    SettleWorkers(s, t, input, outcome, tries);
    SettleDb(s, t, input, outcome, tries);
  }

  lemma PointActs(s: System, t: string, input: Input)
    requires t in s.workers && t in s.db.deliveries
    requires var p := s.workers[t].phase; !p.Failing? && !p.Advancing? && !p.Dispatching? && !p.Returned?
    ensures Acts(s, WorkStep(s, t, input), t, WorkStatement(s, t, input))
    ensures WorkStep(s, t, input) == s.(workers := WorkStep(s, t, input).workers)
  {
  }

  lemma WorkActs(s: System, t: string, input: Input)
    requires t in s.workers && t in s.db.deliveries
    ensures Whole(Acts(s, WorkStep(s, t, input), t, WorkStatement(s, t, input)))
  {
    WorkShape(s, t, input);
    match s.workers[t].phase {
      case Failing(cause) => FailActs(s, t, input, cause);
      case Advancing => AdvanceActs(s, t, input);
      case Dispatching(node) => DispatchActs(s, t, input, node);
      case Returned(outcome, tries) => SettleActs(s, t, input, outcome, tries);
      case _ => PointActs(s, t, input);
    }
  }

  /** Every action executes at most one queue statement, so a system run is a queue run. */
  lemma ActionStates(s: System, a: Action)
    requires Enabled(s, a)
    ensures var statement := StatementOf(s, a);
            && (statement.Some? ==> Sql.Enabled(s.db, statement.value))
            && Do(s, a).db == After(s.db, statement)
  {
    if a.Work? {
      WorkActs(s, a.token, a.input);
    }
  }

  /**
   Every run of the system projects to a run of the fenced queue table, so all that is proved of the table holds here.
   */
  lemma {:induction false} RunProjects(s: System, actions: seq<Action>, end: System)
    returns (steps: seq<Sql.Step<Envelope>>)
    requires IsRun(s, actions, end)
    ensures Sql.IsRun(s.db, steps, end.db) && |steps| <= |actions|
    decreases |actions|
  {
    if actions == [] {
      return [];
    }
    var rest := RunProjects(Do(s, actions[0]), actions[1..], end);
    ActionStates(s, actions[0]);
    var statement := StatementOf(s, actions[0]);
    if statement.None? {
      return rest;
    }
    steps := [statement.value] + rest;
    assert steps[1..] == rest;
  }

  // ---------- Where a worker stands after its own step ----------

  lemma PointMoves(s: System, t: string, input: Input)
    requires t in s.workers && t in s.db.deliveries
    requires var p := s.workers[t].phase; !p.Failing? && !p.Advancing? && !p.Dispatching? && !p.Returned?
    ensures var s', next := WorkStep(s, t, input),
                            NextPoint(s.chains, s.receipts, s.workers[t], s.db.deliveries[t], input);
            t in s'.workers && s'.workers[t].env == s.workers[t].env && s'.workers[t].phase == next.0
  {
  }

  lemma DispatchMoves(s: System, t: string, input: Input)
    requires t in s.workers && t in s.db.deliveries && s.workers[t].phase.Dispatching?
    ensures var s' := WorkStep(s, t, input);
            && t in s'.workers && s'.workers[t].env == s.workers[t].env
            && s'.workers[t].phase in {Returned(Succeeded, 0), Refused("dispatch next chain node")}
  {
  }

  lemma SettleMoves(s: System, t: string, input: Input)
    requires t in s.workers && t in s.db.deliveries && s.workers[t].phase.Returned?
    ensures var s', p := WorkStep(s, t, input), s.workers[t].phase;
            t in s'.workers ==>
              s'.workers[t].env == s.workers[t].env && s'.workers[t].phase == Returned(p.outcome, p.tries + 1)
  {
    WorkShape(s, t, input);
    SettleWorkers(s, t, input, s.workers[t].phase.outcome, s.workers[t].phase.tries);
  }

  lemma ActionGrowsDb(s: System, a: Action)
    requires Inv(s) && Enabled(s, a)
    ensures DbGrows(s.db, Do(s, a).db)
  {
    ActionStates(s, a);
    DbReflexive(s.db);
    if StatementOf(s, a).Some? {
      assert Sql.Inv(s.db) by { assert Unseal(0); }
      QueueStepGrows(s.db, StatementOf(s, a).value);
    }
  }

  // ---------- Growth ----------

  predicate HistoryGrows(s: System, s': System) {
    LedgerGrows(s.ledger, s'.ledger) && OwnersGrow(s.owners, s'.owners)
  }

  lemma CommitGrows(
      s: System, t: string, index: nat, st: ChainState, written: Option<Receipt>, mark: bool, phase: Phase,
      facts: seq<Fact>)
    requires Inv(s) && t in s.workers && t in s.db.deliveries
    requires Whole(Admissible(s, t, index, st, written, phase))
    ensures Whole(HistoryGrows(s, Commit(s, t, st, written, mark, phase, facts)))
  {
    assert Unseal(0);
    InstallKeeps(s, st, KeyOf(s.workers[t].env), written);
  }

  lemma FailGrows(s: System, t: string, index: nat, input: Input, cause: Failure)
    requires Inv(s) && t in s.workers && t in s.db.deliveries
    requires Whole(Reached(s.ledger, s.workers[t].env)) && index == IndexOf(s.ledger, s.workers[t].env)
    requires !cause.uncommitted
    ensures Whole(HistoryGrows(s, FailStep(s, t, input, cause)))
  {
    if input.storeDown || s.workers[t].env.chainId !in s.chains {
      LedgerReflexive(s.ledger);
      return;
    }
    var tr := FailCall(s, t, cause, input.now);
    FailReady(s, t, index, cause, input.now);
    var r := tr.result.value;
    CommitGrows(s, t, index, tr.state, tr.written, r.claimedNow && r.receipt.Some?,
                AfterFail(s.db.deliveries[t].recovered, cause, r), []);
  }

  lemma AdvanceGrows(s: System, t: string, index: nat, input: Input)
    requires Inv(s) && t in s.workers && t in s.db.deliveries
    requires Whole(Reached(s.ledger, s.workers[t].env)) && index == IndexOf(s.ledger, s.workers[t].env)
    ensures Whole(HistoryGrows(s, AdvanceStep(s, t, input)))
  {
    if input.storeDown || s.workers[t].env.chainId !in s.chains {
      LedgerReflexive(s.ledger);
      return;
    }
    var tr, d := AdvanceCall(s, t, input.now), s.db.deliveries[t];
    AdvanceReady(s, t, index, input.now);
    var r := tr.result.value;
    var next := AfterAdvance(s.workers[t].env, d.attempt, d.recovered, r);
    CommitGrows(s, t, index, tr.state, tr.written, r.claimedNow && r.receipt.Some?, next.0, next.1);
  }

  /** The queue steps and the read-only points leave the history alone. */
  lemma HistoryFrame(s: System, t: string, input: Input)
    requires t in s.workers && t in s.db.deliveries
    requires !s.workers[t].phase.Failing? && !s.workers[t].phase.Advancing?
    ensures WorkStep(s, t, input).ledger == s.ledger && WorkStep(s, t, input).owners == s.owners
  {
    WorkShape(s, t, input);
    match s.workers[t].phase {
      case Dispatching(node) => {}
      case Returned(outcome, tries) => SettleWorkers(s, t, input, outcome, tries);
      case _ => PointActs(s, t, input);
    }
  }

  lemma WorkGrows(s: System, t: string, input: Input)
    requires Inv(s) && t in s.workers && t in s.db.deliveries
    ensures Whole(HistoryGrows(s, WorkStep(s, t, input)))
  {
    LedgerReflexive(s.ledger);
    WorkShape(s, t, input);
    WorkerFacts(s, t);
    var index := IndexOf(s.ledger, s.workers[t].env);
    match s.workers[t].phase {
      case Failing(cause) => FailGrows(s, t, index, input, cause);
      case Advancing => AdvanceGrows(s, t, index, input);
      case _ => HistoryFrame(s, t, input);
    }
  }

  lemma FailStartGrows(s: System, chainId: string, cause: string, now: int)
    requires Inv(s) && Enabled(s, FailStart(chainId, cause, now))
    ensures Whole(HistoryGrows(s, FailStartedChain(s, chainId, cause, now)))
  {
    assert Unseal(0);
    FailStartShape(s, chainId, cause, now);
    FailStartReady(s, chainId, cause, now);
    InstallKeeps(s, FailStartCall(s, chainId, cause, now).state,
                 ReceiptKey(ChainKind, chainId, s.chains[chainId].nodes[0].nodeId), None);
    LedgerReflexive(s.ledger);
  }

  lemma QuietHistory(s: System, a: Action)
    requires Enabled(s, a) && !a.Create? && !a.FailStart? && !a.Work?
    ensures Do(s, a).ledger == s.ledger && Do(s, a).owners == s.owners
  {
  }

  lemma StepGrows(s: System, a: Action)
    requires Inv(s) && Enabled(s, a)
    ensures Whole(HistoryGrows(s, Do(s, a)))
  {
    match a {
      case Create(record, now) =>
        assert StoreOk(s.chains, s.receipts, s.ledger, s.owners) by { assert Unseal(0); }
        CreateStore(s.chains, s.receipts, s.ledger, s.owners, NewChain(record, now));
      case FailStart(chainId, cause, now) => FailStartGrows(s, chainId, cause, now);
      case Work(token, input) => WorkGrows(s, token, input);
      case _ =>
        QuietHistory(s, a);
        LedgerReflexive(s.ledger);
    }
  }

  lemma QuietWorkers(s: System, a: Action, t: string)
    requires Enabled(s, a) && !a.Work? && t in s.workers && t in s.db.deliveries
    ensures t in Do(s, a).workers ==> Do(s, a).workers[t] == s.workers[t]
  {
  }

  /** A generation that is no longer running is never running again. */
  lemma GoneStaysGone(s: System, a: Action, t: string)
    requires Enabled(s, a) && t in s.db.deliveries && t !in s.workers
    ensures t !in Do(s, a).workers && t in Do(s, a).db.deliveries
  {
    ActionStates(s, a);
    if a.Work? {
      WorkActs(s, a.token, a.input);
    } else {
      QuietGone(s, a, t);
    }
  }

  lemma QuietGone(s: System, a: Action, t: string)
    requires Enabled(s, a) && !a.Work? && t in s.db.deliveries && t !in s.workers
    ensures t !in Do(s, a).workers
  {
  }

  /** Only the acting worker moves. */
  lemma OthersUnmoved(s: System, a: Action, t: string)
    requires Enabled(s, a) && t in s.workers && t in s.db.deliveries && !(a.Work? && a.token == t)
    ensures t in Do(s, a).workers ==> Do(s, a).workers[t] == s.workers[t]
  {
    if a.Work? {
      WorkActs(s, a.token, a.input);
    } else {
      QuietWorkers(s, a, t);
    }
  }

  /** No action but a claim brings a worker in. */
  lemma WorkersComeFrom(s: System, a: Action, t: string)
    requires Enabled(s, a) && t in Do(s, a).workers && t !in s.workers
    ensures a.ClaimRow? && a.token == t
  {
    if a.Work? {
      WorkActs(s, a.token, a.input);
    }
  }

  lemma {:induction false} GoneForever(s: System, actions: seq<Action>, end: System, t: string)
    requires IsRun(s, actions, end) && t in s.db.deliveries && t !in s.workers
    ensures t !in end.workers
    decreases |actions|
  {
    if actions != [] {
      GoneStaysGone(s, actions[0], t);
      GoneForever(Do(s, actions[0]), actions[1..], end, t);
    }
  }

  /** The receipt of a stored chain is the owner's receipt. */
  lemma OwnerStored(s: System, env: Envelope)
    requires Inv(s) && KeyOf(env) in s.owners && env.chainId in s.ledger
    ensures OwnerOk(s.ledger[env.chainId], KeyOf(env), s.owners[KeyOf(env)])
    ensures env.chainId in s.chains ==> KeyOf(env) in s.receipts && s.receipts[KeyOf(env)] == s.owners[KeyOf(env)]
  {
    assert Unseal(0);
  }
}
