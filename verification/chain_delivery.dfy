/**
 When a live chain can still be delivered. A row of the chain may wait, a worker may still reach a dispatch, or the
 creator may still enqueue the first node; in every other state no run ever queues a delivery of the chain again.
 */
module ChainDelivery {
  import opened Common
  import opened Attempts
  import opened WorkflowTypes
  import opened ChainStore
  import opened Recovery
  import opened ChainEngine
  import opened ChainInvariant
  import opened QueueFrames
  import opened ChainSafety
  import opened ChainFrames
  import P = ChainProgress
  import Sql = SqlRows

  // ---------- What keeps a chain deliverable ----------

  /** An enqueue of the node is not rejected for its retry policy. */
  predicate Accepts(node: ChainNode) {
    node.job.options.retry >= 0
  }

  /** A committed node whose successor is the current node of a live chain. */
  predicate NextIs(st: ChainState, index: nat) {
    Live(st) && st.nextIndex == index + 1 < |st.nodes| && Accepts(st.nodes[index + 1])
  }

  /** From here a delivery of a committed node may still reach a dispatch that is accepted. */
  predicate Reaches(st: ChainState, index: nat, d: Sql.Delivery, phase: Phase) {
    match phase
    case Dispatching(node) => Accepts(node)
    case SuccessReceipt(seen, _) => NextIs(seen, index)
    case CheckSuccess(_) => NextIs(st, index)
    case CheckFailure(plan) => plan.TrySuccess? && NextIs(st, index)
    case Failing(_) => d.recovered && NextIs(st, index)
    case FailureReceipt(_, _) => false
    case Returned(_, _) => false
    case _ =>
      if d.recovered then NextIs(st, index)
      else Live(st) && index < st.nextIndex < |st.nodes| && Accepts(st.nodes[st.nextIndex])
  }

  predicate WorkerReaches(s: System, t: string, c: string) {
    && t in s.workers && t in s.db.deliveries && s.workers[t].env.chainId == c && Named(s.ledger, s.workers[t].env)
    && Reaches(s.ledger[c], IndexOf(s.ledger, s.workers[t].env), s.db.deliveries[t], s.workers[t].phase)
  }

  predicate CanStart(s: System, c: string) {
    && c in s.starting && s.starting[c] == Creating && c in s.ledger && |s.ledger[c].nodes| > 0
    && Accepts(s.ledger[c].nodes[0])
  }

  predicate Unsettled(db: Db, id: nat, c: string) {
    id in db.rows && db.rows[id].payload.chainId == c && db.rows[id].state != Sql.Dead
  }

  ghost predicate Deliverable(s: System, c: string) {
    CanStart(s, c) || (exists id :: Unsettled(s.db, id, c)) || (exists t :: WorkerReaches(s, t, c))
  }

  predicate Waits(s: System, id: nat, c: string) {
    id in s.db.rows && s.db.rows[id].payload.chainId == c && s.db.rows[id].state == Sql.Pending
  }

  /** Some run from here leads to a row of the chain that waits to be claimed. */
  ghost predicate DeliveredAgain(s: System, c: string) {
    exists actions, end, id :: IsRun(s, actions, end) && Waits(end, id, c)
  }

  // ---------- A chain that is not deliverable stays so ----------

  lemma StillCheck(chains: Chains, st: ChainState, env: Envelope, index: nat, d: Sql.Delivery, plan: Plan)
    requires View(chains, st, env, index) && (index < st.nextIndex || !Live(st)) && !plan.RunHandler?
    requires !(plan.TrySuccess? && NextIs(st, index))
    ensures !Reaches(st, index, d, AfterCheckFailure(chains, env, plan))
  {
  }

  lemma StillSuccess(chains: Chains, st: ChainState, env: Envelope, index: nat, d: Sql.Delivery, plan: Plan)
    requires View(chains, st, env, index) && (index < st.nextIndex || !Live(st)) && !NextIs(st, index)
    ensures !Reaches(st, index, d, AfterCheckSuccess(chains, env, plan))
  {
  }

  lemma StillReceipt(
      chains: Chains, receipts: Receipts, st: ChainState, env: Envelope, index: nat, d: Sql.Delivery,
      seen: ChainState)
    requires Names(st, env, index) && seen.nodes == st.nodes && !NextIs(seen, index)
    ensures Whole(!Reaches(st, index, d,
                           AfterSuccessReceipt(chains, receipts, env, d.attempt, ProvenanceOf(d), seen).0))
  {
    ReceiptLeads(chains, receipts, env, index, d.attempt, ProvenanceOf(d), seen);
  }

  /** Meeting the receipt returns or goes on to the pending continuation. */
  lemma ReceiptLeads(
      chains: Chains, receipts: Receipts, env: Envelope, index: nat, attempt: int, p: Provenance, seen: ChainState)
    requires Position(seen.nodes, env.nodeId) == Some(index)
    ensures var phase := AfterSuccessReceipt(chains, receipts, env, attempt, p, seen).0;
            phase.Returned? || (0 <= seen.nextIndex && phase == Successor(seen, index))
  {
  }

  lemma StillFailure(
      chains: Chains, receipts: Receipts, st: ChainState, env: Envelope, index: nat, d: Sql.Delivery,
      seen: ChainState, plan: Plan)
    requires !Live(st)
    ensures !Reaches(st, index, d, AfterFailureReceipt(chains, receipts, env, seen, plan))
  {
  }

  /** The points of a delivery that cannot reach a dispatch lead to such points only. */
  lemma StillPoint(
      chains: Chains, receipts: Receipts, st: ChainState, index: nat, w: Worker, d: Sql.Delivery, input: Input)
    requires !w.phase.Failing? && !w.phase.Advancing? && !w.phase.Dispatching? && !w.phase.Returned?
    requires View(chains, st, w.env, index) && PhaseOk(st, index, d, w.phase) && (index < st.nextIndex || !Live(st))
    requires !Reaches(st, index, d, w.phase)
    ensures Whole(!Reaches(st, index, d, NextPoint(chains, receipts, w, d, input).0))
  {
    match w.phase {
      case CheckFailure(plan) => StillCheck(chains, st, w.env, index, d, plan);
      case CheckSuccess(plan) => StillSuccess(chains, st, w.env, index, d, plan);
      case FailureReceipt(seen, plan) => StillFailure(chains, receipts, st, w.env, index, d, seen, plan);
      case SuccessReceipt(seen, _) => StillReceipt(chains, receipts, st, w.env, index, d, seen);
      case _ =>
    }
  }

  /** A failed attempt of a node that is decided changes nothing, and cannot reach a dispatch it could not reach. */
  lemma StillFail(s: System, t: string, index: nat, input: Input, cause: Failure)
    requires Inv(s) && t in s.workers && t in s.db.deliveries && s.workers[t].phase == Failing(cause)
    requires Whole(Reached(s.ledger, s.workers[t].env)) && index == IndexOf(s.ledger, s.workers[t].env)
    requires s.workers[t].env.chainId in s.chains
    requires var st := s.ledger[s.workers[t].env.chainId];
             (index < st.nextIndex || !Live(st)) && !Reaches(st, index, s.db.deliveries[t], Failing(cause))
    ensures var tr, st := FailCall(s, t, cause, input.now), s.ledger[s.workers[t].env.chainId];
            && tr.result.Ok? && tr.state == st && !tr.result.value.claimedNow
            && !Reaches(st, index, s.db.deliveries[t], AfterFail(s.db.deliveries[t].recovered, cause, tr.result.value))
  {
    var env, d := s.workers[t].env, s.db.deliveries[t];
    WorkerFacts(s, t);
    FailReady(s, t, index, cause, input.now);
    FailEffect(s.chains[env.chainId], Lookup(s.receipts, KeyOf(env)), env.nodeId, Some(cause.text),
               ClaimOf(env, d.attempt, t), input.now);
  }

  lemma StillAdvance(s: System, t: string, index: nat, input: Input)
    requires Inv(s) && t in s.workers && t in s.db.deliveries && s.workers[t].phase == Advancing
    requires Whole(Reached(s.ledger, s.workers[t].env)) && index == IndexOf(s.ledger, s.workers[t].env)
    requires s.workers[t].env.chainId in s.chains
    requires var st := s.ledger[s.workers[t].env.chainId];
             (index < st.nextIndex || !Live(st)) && !Reaches(st, index, s.db.deliveries[t], Advancing)
    ensures var tr, st, d := AdvanceCall(s, t, input.now), s.ledger[s.workers[t].env.chainId], s.db.deliveries[t];
            && tr.result.Ok? && tr.state == st && !tr.result.value.claimedNow
            && !Reaches(st, index, d, AfterAdvance(s.workers[t].env, d.attempt, d.recovered, tr.result.value).0)
  {
    var env, d := s.workers[t].env, s.db.deliveries[t];
    WorkerFacts(s, t);
    AdvanceReady(s, t, index, input.now);
    AdvanceEffect(s.chains[env.chainId], Lookup(s.receipts, KeyOf(env)), env.nodeId, ClaimOf(env, d.attempt, t),
                  input.now);
    DispositionsPartition(s.chains[env.chainId], index);
  }

  // ---------- One step of a chain that is not deliverable ----------

  /** A delivery whose node is decided and that cannot reach a dispatch. */
  predicate StillWorker(l: Chains, d: Sql.Delivery, w: Worker) {
    && Named(l, w.env)
    && var st, index := l[w.env.chainId], IndexOf(l, w.env);
       (index < st.nextIndex || !Live(st)) && !Reaches(st, index, d, w.phase)
  }

  ghost predicate Still(s: System, c: string) {
    && c in s.ledger && !CanStart(s, c) && (forall id :: !Unsettled(s.db, id, c))
    && forall t :: t in s.workers && s.workers[t].env.chainId == c ==>
         t in s.db.deliveries && StillWorker(s.ledger, s.db.deliveries[t], s.workers[t])
  }

  lemma StatementStill(db: Db, step: Sql.Step<Envelope>, c: string)
    requires Sql.Enabled(db, step) && (forall id :: !Unsettled(db, id, c))
    requires step.Insert? ==> step.payload.chainId != c
    ensures forall id :: !Unsettled(Sql.Apply(db, step), id, c)
  {
    forall id ensures !Unsettled(Sql.Apply(db, step), id, c) {
      assert !Unsettled(db, id, c);
    }
  }

  lemma InsertsElsewhere(s: System, a: Action, c: string)
    requires Inv(s) && Enabled(s, a) && Still(s, c)
    requires StatementOf(s, a).Some? && StatementOf(s, a).value.Insert?
    ensures StatementOf(s, a).value.payload.chainId != c
  {
    P.StatementSource(s, a);
    assert LedgerOk(s.chains, s.ledger) by { assert Unseal(0); }
  }

  lemma RowsStill(s: System, a: Action, c: string)
    requires Inv(s) && Enabled(s, a) && Still(s, c)
    ensures forall id :: !Unsettled(Do(s, a).db, id, c)
  {
    ActionStates(s, a);
    if StatementOf(s, a).Some? {
      if StatementOf(s, a).value.Insert? {
        InsertsElsewhere(s, a, c);
      }
      StatementStill(s.db, StatementOf(s, a).value, c);
    }
  }

  /** A decided node is not committed again. */
  lemma NoAdvance(s: System, t: string, input: Input, c: string)
    requires Inv(s) && Still(s, c) && t in s.workers && s.workers[t].env.chainId == c
    ensures !Advances(s, t, input)
  {
    WorkerFacts(s, t);
    if s.workers[t].phase == Advancing && c in s.chains {
      StillAdvance(s, t, IndexOf(s.ledger, s.workers[t].env), input);
    }
  }

  lemma SpotStill(s: System, a: Action, c: string)
    requires Inv(s) && Enabled(s, a) && Still(s, c)
    ensures c in Do(s, a).ledger && P.SameSpot(s.ledger[c], Do(s, a).ledger[c])
    ensures Extends(s.ledger[c], Do(s, a).ledger[c])
  {
    StepGrows(s, a);
    P.SpotMoves(s, a, c);
    if a.Work? && s.workers[a.token].env.chainId == c {
      NoAdvance(s, a.token, a.input, c);
    }
  }

  lemma StartStill(s: System, a: Action, c: string)
    requires Inv(s) && Enabled(s, a) && Still(s, c)
    ensures !CanStart(Do(s, a), c)
  {
    SpotStill(s, a, c);
    if c in Do(s, a).starting && Do(s, a).starting[c] == Creating {
      StartingShrinks(s, a, c);
    }
  }

  /** Only creation makes a chain wait for its creator. */
  lemma StartingShrinks(s: System, a: Action, c: string)
    requires Enabled(s, a) && c in s.ledger && c in Do(s, a).starting && Do(s, a).starting[c] == Creating
    ensures c in s.starting && s.starting[c] == Creating && !(a.Start? && a.chainId == c)
  {
    if a.Work? {
      WorkActs(s, a.token, a.input);
    }
  }

  // ---------- The acting worker ----------

  lemma FailMoves(s: System, t: string, cause: Failure, tr: Transition<FailResult>)
    requires t in s.workers && t in s.db.deliveries && tr.result.Ok?
    ensures var s' := FailCommit(s, t, cause, tr);
            && t in s'.workers && s'.workers[t].env == s.workers[t].env
            && s'.workers[t].phase == AfterFail(s.db.deliveries[t].recovered, cause, tr.result.value)
  {
  }

  lemma AdvanceMoves(s: System, t: string, tr: Transition<AdvanceResult>)
    requires t in s.workers && t in s.db.deliveries && tr.result.Ok?
    ensures var s', d := AdvanceCommit(s, t, tr), s.db.deliveries[t];
            && t in s'.workers && s'.workers[t].env == s.workers[t].env
            && s'.workers[t].phase == AfterAdvance(s.workers[t].env, d.attempt, d.recovered, tr.result.value).0
  {
  }

  lemma FailMovesStill(s: System, t: string, input: Input, c: string)
    requires Inv(s) && Still(s, c) && t in s.workers && t in s.db.deliveries && s.workers[t].env.chainId == c
    requires s.workers[t].phase.Failing?
    ensures var s' := WorkStep(s, t, input);
            && t in s'.workers && s'.workers[t].env == s.workers[t].env && Named(s.ledger, s.workers[t].env)
            && Whole(!Reaches(s.ledger[c], IndexOf(s.ledger, s.workers[t].env), s.db.deliveries[t],
                              s'.workers[t].phase))
  {
    WorkShape(s, t, input);
    WorkerFacts(s, t);
    var cause := s.workers[t].phase.cause;
    if !input.storeDown && c in s.chains {
      StillFail(s, t, IndexOf(s.ledger, s.workers[t].env), input, cause);
      FailMoves(s, t, cause, FailCall(s, t, cause, input.now));
    }
  }

  lemma AdvanceMovesStill(s: System, t: string, input: Input, c: string)
    requires Inv(s) && Still(s, c) && t in s.workers && t in s.db.deliveries && s.workers[t].env.chainId == c
    requires s.workers[t].phase.Advancing?
    ensures var s' := WorkStep(s, t, input);
            && t in s'.workers && s'.workers[t].env == s.workers[t].env && Named(s.ledger, s.workers[t].env)
            && Whole(!Reaches(s.ledger[c], IndexOf(s.ledger, s.workers[t].env), s.db.deliveries[t],
                              s'.workers[t].phase))
  {
    WorkShape(s, t, input);
    WorkerFacts(s, t);
    if !input.storeDown && c in s.chains {
      StillAdvance(s, t, IndexOf(s.ledger, s.workers[t].env), input);
      AdvanceMoves(s, t, AdvanceCall(s, t, input.now));
    }
  }

  lemma MovesStill(s: System, t: string, input: Input, c: string)
    requires Inv(s) && Still(s, c) && t in s.workers && t in s.db.deliveries && s.workers[t].env.chainId == c
    requires t in WorkStep(s, t, input).workers
    ensures var s' := WorkStep(s, t, input);
            && s'.workers[t].env == s.workers[t].env && Named(s.ledger, s.workers[t].env)
            && Whole(!Reaches(s.ledger[c], IndexOf(s.ledger, s.workers[t].env), s.db.deliveries[t],
                              s'.workers[t].phase))
  {
    WorkerFacts(s, t);
    match s.workers[t].phase {
      case Failing(_) => FailMovesStill(s, t, input, c);
      case Advancing => AdvanceMovesStill(s, t, input, c);
      case Dispatching(_) => DispatchMoves(s, t, input);
      case Returned(_, _) => SettleMoves(s, t, input);
      case _ => PointMovesStill(s, t, input, c);
    }
  }

  lemma PointMovesStill(s: System, t: string, input: Input, c: string)
    requires Inv(s) && Still(s, c) && t in s.workers && t in s.db.deliveries && s.workers[t].env.chainId == c
    requires var p := s.workers[t].phase; !p.Failing? && !p.Advancing? && !p.Dispatching? && !p.Returned?
    ensures var s' := WorkStep(s, t, input);
            && t in s'.workers && s'.workers[t].env == s.workers[t].env && Named(s.ledger, s.workers[t].env)
            && Whole(!Reaches(s.ledger[c], IndexOf(s.ledger, s.workers[t].env), s.db.deliveries[t],
                              s'.workers[t].phase))
  {
    WorkerFacts(s, t);
    PointMoves(s, t, input);
    StillPoint(s.chains, s.receipts, s.ledger[c], IndexOf(s.ledger, s.workers[t].env), s.workers[t],
               s.db.deliveries[t], input);
  }

  lemma ReachStays(st: ChainState, st': ChainState, index: nat, d: Sql.Delivery, e: Sql.Delivery, phase: Phase)
    requires P.SameSpot(st, st') && Extends(st, st') && SameClaim(d, e) && !Reaches(st, index, d, phase)
    ensures !Reaches(st', index, e, phase)
  {
  }

  lemma WorkerStill(s: System, a: Action, c: string, t: string)
    requires Inv(s) && Enabled(s, a) && Still(s, c) && t in s.workers && t in Do(s, a).workers
    requires s.workers[t].env.chainId == c
    ensures t in Do(s, a).db.deliveries && Do(s, a).workers[t].env == s.workers[t].env
    ensures StillWorker(Do(s, a).ledger, Do(s, a).db.deliveries[t], Do(s, a).workers[t])
  {
    var index := IndexOf(s.ledger, s.workers[t].env);
    SpotStill(s, a, c);
    StepGrows(s, a);
    ActionGrowsDb(s, a);
    WorkerFacts(s, t);
    GrowthKeepsReached(s.ledger, Do(s, a).ledger, s.workers[t].env);
    if a.Work? && a.token == t {
      MovesStill(s, t, a.input, c);
    } else {
      OthersUnmoved(s, a, t);
    }
    ReachStays(s.ledger[c], Do(s, a).ledger[c], index, s.db.deliveries[t], Do(s, a).db.deliveries[t],
               Do(s, a).workers[t].phase);
  }

  /** Nothing claims a delivery of the chain, and no worker changes its chain. */
  lemma ForeignWorker(s: System, a: Action, c: string, t: string)
    requires Inv(s) && Enabled(s, a) && Still(s, c) && t in Do(s, a).workers && Do(s, a).workers[t].env.chainId == c
    ensures t in s.workers && s.workers[t].env.chainId == c
  {
    if t !in s.workers {
      WorkersComeFrom(s, a, t);
      assert Unsettled(s.db, a.id, c);
    } else if a.Work? && a.token == t {
      WorkActs(s, t, a.input);
    } else {
      WorkerFacts(s, t);
      OthersUnmoved(s, a, t);
    }
  }

  lemma StepStill(s: System, a: Action, c: string)
    requires Inv(s) && Enabled(s, a) && Still(s, c)
    ensures Still(Do(s, a), c)
  {
    SpotStill(s, a, c);
    StartStill(s, a, c);
    RowsStill(s, a, c);
    forall t | t in Do(s, a).workers && Do(s, a).workers[t].env.chainId == c
      ensures t in Do(s, a).db.deliveries
      ensures StillWorker(Do(s, a).ledger, Do(s, a).db.deliveries[t], Do(s, a).workers[t])
    {
      ForeignWorker(s, a, c, t);
      WorkerStill(s, a, c, t);
    }
  }

  lemma {:induction false} StillForever(s: System, actions: seq<Action>, end: System, c: string)
    requires Inv(s) && Still(s, c) && IsRun(s, actions, end)
    ensures Still(end, c)
    decreases |actions|
  {
    if actions != [] {
      StepKeepsInv(s, actions[0]);
      StepStill(s, actions[0], c);
      StillForever(Do(s, actions[0]), actions[1..], end, c);
    }
  }

  // ---------- Live chains stay stored, and their running deliveries keep their rows ----------

  predicate LiveStored(s: System) {
    forall c :: c in s.ledger && Live(s.ledger[c]) ==> c in s.chains
  }

  lemma FailCommitChains(s: System, t: string, cause: Failure, tr: Transition<FailResult>)
    requires t in s.workers && t in s.db.deliveries
    ensures s.chains.Keys <= FailCommit(s, t, cause, tr).chains.Keys
  {
  }

  lemma AdvanceCommitChains(s: System, t: string, tr: Transition<AdvanceResult>)
    requires t in s.workers && t in s.db.deliveries
    ensures s.chains.Keys <= AdvanceCommit(s, t, tr).chains.Keys
  {
  }

  lemma QueueChains(s: System, t: string, input: Input)
    requires t in s.workers && t in s.db.deliveries
    requires s.workers[t].phase.Dispatching? || s.workers[t].phase.Returned?
    ensures WorkStep(s, t, input).chains == s.chains
  {
    WorkShape(s, t, input);
  }

  /** No worker removes a chain. */
  lemma WorkChains(s: System, t: string, input: Input)
    requires t in s.workers && t in s.db.deliveries
    ensures s.chains.Keys <= WorkStep(s, t, input).chains.Keys
  {
    WorkShape(s, t, input);
    match s.workers[t].phase {
      case Failing(cause) =>
        if !input.storeDown && s.workers[t].env.chainId in s.chains {
          FailCommitChains(s, t, cause, FailCall(s, t, cause, input.now));
        }
      case Advancing =>
        if !input.storeDown && s.workers[t].env.chainId in s.chains {
          AdvanceCommitChains(s, t, AdvanceCall(s, t, input.now));
        }
      case Dispatching(_) => QueueChains(s, t, input);
      case Returned(_, _) => QueueChains(s, t, input);
      case _ => PointActs(s, t, input);
    }
  }

  lemma ChainStaysStored(s: System, a: Action, c: string)
    requires Inv(s) && Enabled(s, a) && c in s.chains && Live(s.chains[c])
    ensures c in Do(s, a).chains
  {
    if a.Work? {
      WorkChains(s, a.token, a.input);
    }
  }

  lemma StepKeepsStored(s: System, a: Action)
    requires Inv(s) && Enabled(s, a) && LiveStored(s)
    ensures LiveStored(Do(s, a))
  {
    StepGrows(s, a);
    assert LedgerOk(s.chains, s.ledger) by { assert Unseal(0); }
    forall c | c in Do(s, a).ledger && Live(Do(s, a).ledger[c]) ensures c in Do(s, a).chains {
      if c in s.ledger {
        ChainStaysStored(s, a, c);
      } else {
        P.CreatedChain(s, a, c);
      }
    }
  }

  /** The delivery is about the current node of a live chain. */
  predicate AtCurrent(l: Chains, env: Envelope) {
    Named(l, env) && Live(l[env.chainId]) && IndexOf(l, env) == l[env.chainId].nextIndex
  }

  predicate RowHeld(db: Db, t: string) {
    t in db.deliveries && db.deliveries[t].id in db.rows && db.rows[db.deliveries[t].id].state != Sql.Dead
  }

  predicate CurrentHeld(s: System) {
    forall t :: t in s.workers && AtCurrent(s.ledger, s.workers[t].env) ==> RowHeld(s.db, t)
  }

  lemma WasCurrent(s: System, a: Action, t: string)
    requires Inv(s) && Enabled(s, a) && t in s.workers && AtCurrent(Do(s, a).ledger, s.workers[t].env)
    ensures AtCurrent(s.ledger, s.workers[t].env)
    ensures P.SameSpot(s.ledger[s.workers[t].env.chainId], Do(s, a).ledger[s.workers[t].env.chainId])
  {
    var env := s.workers[t].env;
    WorkerFacts(s, t);
    StepGrows(s, a);
    P.SpotMoves(s, a, env.chainId);
    if a.Work? && Advances(s, a.token, a.input) && s.workers[a.token].env.chainId == env.chainId {
      P.AdvanceMoves(s, a.token, a.input);
      WorkerFacts(s, a.token);
      AdvanceEffect(s.chains[env.chainId], Lookup(s.receipts, KeyOf(s.workers[a.token].env)),
                    s.workers[a.token].env.nodeId,
                    ClaimOf(s.workers[a.token].env, s.db.deliveries[a.token].attempt, a.token), a.input.now);
    }
  }

  lemma CurrentRowStays(s: System, a: Action, t: string)
    requires Inv(s) && Enabled(s, a) && t in s.workers && AtCurrent(Do(s, a).ledger, s.workers[t].env)
    requires RowHeld(s.db, t)
    ensures RowHeld(Do(s, a).db, t)
  {
    var c, id := s.workers[t].env.chainId, s.db.deliveries[t].id;
    WasCurrent(s, a, t);
    ActionGrowsDb(s, a);
    assert WorkerOk(s.ledger, s.db, t, s.workers[t]) && id < s.db.nextId && s.ledger[c].chainId == c by {
      assert Unseal(0);
    }
    P.CurrentStays(s, a, c, Do(s, a).ledger[c], id);
  }

  lemma StepKeepsHeld(s: System, a: Action)
    requires Inv(s) && Enabled(s, a) && CurrentHeld(s)
    ensures CurrentHeld(Do(s, a))
  {
    forall t | t in Do(s, a).workers && AtCurrent(Do(s, a).ledger, Do(s, a).workers[t].env)
      ensures RowHeld(Do(s, a).db, t)
    {
      if t !in s.workers {
        WorkersComeFrom(s, a, t);
      } else {
        SameEnvelope(s, a, t);
        WasCurrent(s, a, t);
        CurrentRowStays(s, a, t);
      }
    }
  }

  lemma SameEnvelope(s: System, a: Action, t: string)
    requires Inv(s) && Enabled(s, a) && t in s.workers && t in Do(s, a).workers
    ensures Do(s, a).workers[t].env == s.workers[t].env
  {
    WorkerFacts(s, t);
    if a.Work? && a.token == t {
      WorkActs(s, t, a.input);
    } else {
      OthersUnmoved(s, a, t);
    }
  }

  // ---------- A deliverable chain can be delivered ----------

  /** Nothing fails, the handler succeeds and the enqueue is accepted. */
  const GOOD := Input(0, false, Succeeded, Accepted, "k", true, true)

  function Rank(phase: Phase): nat {
    match phase
    case Entered => 6
    case Execute => 5
    case Failing(_) => 4
    case Advancing => 4
    case CheckFailure(_) => 3
    case CheckSuccess(_) => 2
    case SuccessReceipt(_, _) => 1
    case _ => 0
  }

  lemma ReceiptReaches(
      chains: Chains, receipts: Receipts, st: ChainState, env: Envelope, index: nat, d: Sql.Delivery,
      seen: ChainState)
    requires env.chainId in chains && View(chains, st, env, index) && Extends(seen, st) && Sound(seen)
    requires index < seen.nextIndex && NextIs(seen, index)
    requires KeyOf(env) in receipts ==> OwnerOk(st, KeyOf(env), receipts[KeyOf(env)])
    ensures AfterSuccessReceipt(chains, receipts, env, d.attempt, ProvenanceOf(d), seen).0
            == Dispatching(seen.nodes[index + 1])
  {
  }

  lemma CheckReaches(chains: Chains, st: ChainState, env: Envelope, index: nat, plan: Plan)
    requires env.chainId in chains && View(chains, st, env, index) && NextIs(st, index)
    ensures AfterCheckFailure(chains, env, plan) == Proceed(plan)
    ensures AfterCheckSuccess(chains, env, plan) == SuccessReceipt(st, plan)
  {
  }

  /** While its chain is stored, a delivery that can reach a dispatch gets one point closer. */
  lemma PointReaches(
      chains: Chains, receipts: Receipts, st: ChainState, index: nat, w: Worker, d: Sql.Delivery)
    requires !w.phase.Failing? && !w.phase.Advancing? && !w.phase.Dispatching? && !w.phase.Returned?
    requires w.env.chainId in chains && View(chains, st, w.env, index) && PhaseOk(st, index, d, w.phase)
    requires KeyOf(w.env) in receipts ==> OwnerOk(st, KeyOf(w.env), receipts[KeyOf(w.env)])
    requires Reaches(st, index, d, w.phase)
    ensures var next := NextPoint(chains, receipts, w, d, GOOD).0;
            Reaches(st, index, d, next) && Rank(next) < Rank(w.phase)
  {
    match w.phase {
      case CheckFailure(plan) => CheckReaches(chains, st, w.env, index, plan);
      case CheckSuccess(plan) => CheckReaches(chains, st, w.env, index, plan);
      case SuccessReceipt(seen, _) => ReceiptReaches(chains, receipts, st, w.env, index, d, seen);
      case _ =>
    }
  }

  lemma FailReaches(s: System, t: string, index: nat, cause: Failure)
    requires Inv(s) && t in s.workers && t in s.db.deliveries && s.workers[t].phase == Failing(cause)
    requires Whole(Reached(s.ledger, s.workers[t].env)) && index == IndexOf(s.ledger, s.workers[t].env)
    requires s.workers[t].env.chainId in s.chains
    requires Reaches(s.ledger[s.workers[t].env.chainId], index, s.db.deliveries[t], Failing(cause))
    ensures var tr, st := FailCall(s, t, cause, 0), s.ledger[s.workers[t].env.chainId];
            && tr.result.Ok? && tr.state == st && tr.written == None && !tr.result.value.claimedNow
            && AfterFail(s.db.deliveries[t].recovered, cause, tr.result.value)
               == CheckFailure(TrySuccess(Finish(Succeeded)))
  {
    var env, d := s.workers[t].env, s.db.deliveries[t];
    WorkerFacts(s, t);
    FailReady(s, t, index, cause, 0);
    FailEffect(s.chains[env.chainId], Lookup(s.receipts, KeyOf(env)), env.nodeId, Some(cause.text),
               ClaimOf(env, d.attempt, t), 0);
    DispositionsPartition(s.chains[env.chainId], index);
  }

  lemma AdvanceReaches(s: System, t: string, index: nat)
    requires Inv(s) && t in s.workers && t in s.db.deliveries && s.workers[t].phase == Advancing
    requires Whole(Reached(s.ledger, s.workers[t].env)) && index == IndexOf(s.ledger, s.workers[t].env)
    requires s.workers[t].env.chainId in s.chains
    requires Reaches(s.ledger[s.workers[t].env.chainId], index, s.db.deliveries[t], Advancing)
    ensures var tr, st, d := AdvanceCall(s, t, 0), s.ledger[s.workers[t].env.chainId], s.db.deliveries[t];
            && tr.result.Ok? && tr.state == st && tr.written == None && !tr.result.value.claimedNow
            && var next := AfterAdvance(s.workers[t].env, d.attempt, d.recovered, tr.result.value).0;
               Reaches(st, index, d, next) && Rank(next) < Rank(Advancing)
  {
    var env, d := s.workers[t].env, s.db.deliveries[t];
    WorkerFacts(s, t);
    AdvanceReady(s, t, index, 0);
    AdvanceEffect(s.chains[env.chainId], Lookup(s.receipts, KeyOf(env)), env.nodeId, ClaimOf(env, d.attempt, t), 0);
    DispositionsPartition(s.chains[env.chainId], index);
  }

  /** What one good step leaves: the same chain, the same delivery, and a worker one point closer to its dispatch. */
  ghost predicate Closer(s: System, s': System, t: string, c: string) {
    && WorkerReaches(s, t, c) && t in s'.workers && s'.workers[t].env == s.workers[t].env
    && c in s'.ledger && s'.ledger == s.ledger
    && Reaches(s.ledger[c], IndexOf(s.ledger, s.workers[t].env), s.db.deliveries[t], s'.workers[t].phase)
    && Rank(s'.workers[t].phase) < Rank(s.workers[t].phase)
  }

  lemma PointCloser(s: System, t: string, c: string)
    requires Inv(s) && WorkerReaches(s, t, c) && c in s.chains
    requires var p := s.workers[t].phase; !p.Failing? && !p.Advancing? && !p.Dispatching? && !p.Returned?
    ensures Whole(Closer(s, WorkStep(s, t, GOOD), t, c))
  {
    WorkerFacts(s, t);
    PointMoves(s, t, GOOD);
    HistoryFrame(s, t, GOOD);
    if KeyOf(s.workers[t].env) in s.receipts {
      assert KeyOf(s.workers[t].env) in s.owners by { assert Unseal(0); }
      OwnerStored(s, s.workers[t].env);
    }
    PointReaches(s.chains, s.receipts, s.ledger[c], IndexOf(s.ledger, s.workers[t].env), s.workers[t],
                 s.db.deliveries[t]);
  }

  lemma FailCloser(s: System, t: string, c: string, cause: Failure)
    requires Inv(s) && WorkerReaches(s, t, c) && c in s.chains && s.workers[t].phase == Failing(cause)
    ensures Whole(Closer(s, WorkStep(s, t, GOOD), t, c))
  {
    var tr := FailCall(s, t, cause, 0);
    WorkShape(s, t, GOOD);
    WorkerFacts(s, t);
    FailReaches(s, t, IndexOf(s.ledger, s.workers[t].env), cause);
    FailMoves(s, t, cause, tr);
    P.FailCommitLedger(s, t, cause, tr);
  }

  lemma AdvanceCloser(s: System, t: string, c: string)
    requires Inv(s) && WorkerReaches(s, t, c) && c in s.chains && s.workers[t].phase == Advancing
    ensures Whole(Closer(s, WorkStep(s, t, GOOD), t, c))
  {
    WorkShape(s, t, GOOD);
    WorkerFacts(s, t);
    AdvanceReaches(s, t, IndexOf(s.ledger, s.workers[t].env));
    AdvanceMoves(s, t, AdvanceCall(s, t, 0));
    AdvanceKeepsLedger(s, t, AdvanceCall(s, t, 0));
  }

  lemma AdvanceKeepsLedger(s: System, t: string, tr: Transition<AdvanceResult>)
    requires t in s.workers && t in s.db.deliveries && tr.result.Ok?
    requires tr.state.chainId in s.ledger && s.ledger[tr.state.chainId] == tr.state
    ensures AdvanceCommit(s, t, tr).ledger == s.ledger
  {
  }

  lemma StepCloser(s: System, t: string, c: string)
    requires Inv(s) && WorkerReaches(s, t, c) && c in s.chains && !s.workers[t].phase.Dispatching?
    ensures Whole(Closer(s, WorkStep(s, t, GOOD), t, c))
  {
    match s.workers[t].phase {
      case Failing(cause) => FailCloser(s, t, c, cause);
      case Advancing => AdvanceCloser(s, t, c);
      case _ => PointCloser(s, t, c);
    }
  }

  lemma Later(s: System, a: Action, c: string)
    requires Enabled(s, a) && DeliveredAgain(Do(s, a), c)
    ensures DeliveredAgain(s, c)
  {
    var actions, end, id :| IsRun(Do(s, a), actions, end) && Waits(end, id, c);
    assert ([a] + actions)[0] == a && ([a] + actions)[1..] == actions;
    assert IsRun(s, [a] + actions, end);
  }

  lemma Now(s: System, id: nat, c: string)
    requires Waits(s, id, c)
    ensures DeliveredAgain(s, c)
  {
    assert IsRun(s, [], s);
  }

  lemma DispatchDelivers(s: System, t: string, c: string)
    requires Inv(s) && WorkerReaches(s, t, c) && s.workers[t].phase.Dispatching?
    ensures Waits(WorkStep(s, t, GOOD), s.db.nextId, c)
  {
    var w := s.workers[t];
    P.DispatchInserts(s, t, GOOD, NodeEnvelope(w.env.dispatchId, w.env.chainId, w.phase.node, "k"));
  }

  lemma {:induction false} WorkerDelivers(s: System, t: string, c: string)
    requires Inv(s) && LiveStored(s) && WorkerReaches(s, t, c) && Live(s.ledger[c])
    ensures DeliveredAgain(s, c)
    decreases Rank(s.workers[t].phase)
  {
    var a := Work(t, GOOD);
    if s.workers[t].phase.Dispatching? {
      DispatchDelivers(s, t, c);
      Now(Do(s, a), s.db.nextId, c);
    } else {
      StepCloser(s, t, c);
      StepKeepsInv(s, a);
      StepKeepsStored(s, a);
      ActionGrowsDb(s, a);
      ClaimReaches(s.ledger[c], IndexOf(s.ledger, s.workers[t].env), s.db.deliveries[t], Do(s, a).db.deliveries[t],
                   Do(s, a).workers[t].phase);
      WorkerDelivers(Do(s, a), t, c);
    }
    Later(s, a, c);
  }

  lemma ClaimReaches(st: ChainState, index: nat, d: Sql.Delivery, e: Sql.Delivery, phase: Phase)
    requires SameClaim(d, e) && Reaches(st, index, d, phase)
    ensures Reaches(st, index, e, phase)
  {
  }

  lemma StartDelivers(s: System, c: string)
    requires Inv(s) && CanStart(s, c) && c in s.chains
    ensures DeliveredAgain(s, c)
  {
    var a := Start(c, "k", Accepted, 0);
    assert LedgerOk(s.chains, s.ledger) by { assert Unseal(0); }
    Now(Do(s, a), s.db.nextId, c);
    Later(s, a, c);
  }

  /** The default grace of two seconds and lease of five minutes. */
  const LEASE := Sql.LeaseConfig(2000, 300_000)

  /** A clock past the lease of the row. */
  function Expiry(row: Sql.Row<Envelope>): int
    requires row.startedAt.Some?
  {
    var start := if row.startedAt.value < 0 then 0 else row.startedAt.value;
    start + LEASE.grace + LEASE.leaseNoTimeout
    + if row.timeoutSeconds.Some? && row.timeoutSeconds.value > 0 then row.timeoutSeconds.value * 1000 else 0
  }

  lemma RowDelivers(s: System, id: nat, c: string)
    requires Inv(s) && Unsettled(s.db, id, c)
    ensures DeliveredAgain(s, c)
  {
    if s.db.rows[id].state == Sql.Pending {
      Now(s, id, c);
    } else {
      assert Sql.TruthfulToken(s.db, id, s.db.rows[id]) by { assert Unseal(0); }
      var a := Recover(Expiry(s.db.rows[id]), LEASE);
      assert Sql.Stale(s.db.rows[id], a.now, a.cfg);
      Now(Do(s, a), id, c);
      Later(s, a, c);
    }
  }

  // ---------- The theorem ----------

  lemma NothingLeftIsStill(s: System, c: string)
    requires Inv(s) && CurrentHeld(s) && c in s.ledger && Live(s.ledger[c]) && !Deliverable(s, c)
    ensures Still(s, c)
  {
    forall t | t in s.workers && s.workers[t].env.chainId == c
      ensures t in s.db.deliveries && StillWorker(s.ledger, s.db.deliveries[t], s.workers[t])
    {
      WorkerFacts(s, t);
      assert !WorkerReaches(s, t, c);
      if AtCurrent(s.ledger, s.workers[t].env) {
        assert WorkerOk(s.ledger, s.db, t, s.workers[t]) by { assert Unseal(0); }
        assert Unsettled(s.db, s.db.deliveries[t].id, c);
      }
    }
  }

  lemma StillIsSilent(s: System, c: string)
    requires Inv(s) && Still(s, c)
    ensures !DeliveredAgain(s, c)
  {
    forall actions, end, id | IsRun(s, actions, end) ensures !Waits(end, id, c) {
      StillForever(s, actions, end, c);
      assert !Unsettled(end.db, id, c);
    }
  }

  lemma {:induction false} RunKeepsParts(s: System, actions: seq<Action>, end: System)
    requires Inv(s) && LiveStored(s) && CurrentHeld(s) && IsRun(s, actions, end)
    ensures Inv(end) && LiveStored(end) && CurrentHeld(end)
    decreases |actions|
  {
    if actions != [] {
      StepKeepsInv(s, actions[0]);
      StepKeepsStored(s, actions[0]);
      StepKeepsHeld(s, actions[0]);
      RunKeepsParts(Do(s, actions[0]), actions[1..], end);
    }
  }

  /**
   Exactly when a live chain is ever delivered again: in every reachable state, some continuation queues a delivery of
   the chain if and only if it has a row that is not settled, or a worker of it can still reach an accepted dispatch, or
   its creator has yet to enqueue its first node.
   */
  lemma DeliveredAgainIff(start: System, actions: seq<Action>, s: System, c: string)
    requires Initial(start) && IsRun(start, actions, s) && c in s.ledger && Live(s.ledger[c])
    ensures DeliveredAgain(s, c) <==> Deliverable(s, c)
  {
    InitialInv(start);
    RunKeepsParts(start, actions, s);
    if CanStart(s, c) {
      StartDelivers(s, c);
    } else if id :| Unsettled(s.db, id, c) {
      RowDelivers(s, id, c);
    } else if t :| WorkerReaches(s, t, c) {
      WorkerDelivers(s, t, c);
    } else {
      NothingLeftIsStill(s, c);
      StillIsSilent(s, c);
    }
  }
}
