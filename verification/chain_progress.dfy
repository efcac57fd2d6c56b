/**
 No lost continuation. A live chain is carried when an unsettled row of its current node is queued, or a delivery of the
 previous node is bound to enqueue that node again. Chains are carried throughout a run exactly when every step that
 commits a node finds an unsettled row of that node that outlives the commit with recovery provenance; a commit that
 owns its row always does, and commits own their rows whenever leases outlive their handlers.
 */
module ChainProgress {
  import opened Common
  import opened Attempts
  import opened WorkflowTypes
  import opened ChainStore
  import opened Recovery
  import opened ChainEngine
  import opened ChainInvariant
  import opened QueueFrames
  import opened ChainSafety
  import opened ChainFrames
  import Sql = SqlRows

  type Rows = map<nat, Sql.Row<Envelope>>
  type Workers = map<string, Worker>

  // ---------- Exclusive leases ----------

  /** Stale recovery takes a row only from a worker that vanished or whose handler already returned. */
  predicate Exclusive(s: System, a: Action) {
    a.Recover? ==>
      forall id :: id in s.db.rows && Sql.Stale(s.db.rows[id], a.now, a.cfg) && s.db.rows[id].token.Some?
                   && s.db.rows[id].token.value in s.workers ==>
        s.workers[s.db.rows[id].token.value].phase.Returned?
  }

  /** The clock has not reached the end of the row's lease: its timeout and grace, or the lease without timeout. */
  predicate WithinLease(row: Sql.Row<Envelope>, now: int, cfg: Sql.LeaseConfig) {
    row.startedAt.Some? ==>
      if row.timeoutSeconds.Some? && row.timeoutSeconds.value > 0
      then now < row.startedAt.value + row.timeoutSeconds.value * 1000 + cfg.grace
      else 0 < row.startedAt.value && now < row.startedAt.value + cfg.leaseNoTimeout
  }

  /** Stale recovery is exclusive whenever every running handler is within its lease. */
  lemma LeasesOutliveHandlers(s: System, now: int, cfg: Sql.LeaseConfig)
    requires forall t :: t in s.workers && t in s.db.deliveries && !s.workers[t].phase.Returned?
                         && Sql.Owns(s.db.rows, s.db.deliveries[t]) ==>
               WithinLease(s.db.rows[s.db.deliveries[t].id], now, cfg)
    requires Sql.Inv(s.db)
    ensures Exclusive(s, Recover(now, cfg))
  {
    forall id | id in s.db.rows && Sql.Stale(s.db.rows[id], now, cfg) && s.db.rows[id].token.Some?
                && s.db.rows[id].token.value in s.workers
      ensures s.workers[s.db.rows[id].token.value].phase.Returned?
    {
      var t := s.db.rows[id].token.value;
      assert Sql.DeliveryOk(s.db, t) && Sql.Owns(s.db.rows, s.db.deliveries[t]);
    }
  }

  ghost predicate IsExclusiveRun(s: System, actions: seq<Action>, end: System)
    decreases |actions|
  {
    if actions == [] then end == s
    else && Enabled(s, actions[0]) && Exclusive(s, actions[0])
         && IsExclusiveRun(Do(s, actions[0]), actions[1..], end)
  }

  /** A delivery that is still inside its handler owns its row. */
  predicate Holds(db: Db, t: string, w: Worker) {
    w.phase.Returned? || (t in db.deliveries && Sql.Owns(db.rows, db.deliveries[t]))
  }

  predicate Held(s: System) {
    forall t :: t in s.workers ==> Holds(s.db, t, s.workers[t])
  }

  // ---------- What carries a chain ----------

  predicate At(st: ChainState, env: Envelope, index: int) {
    env.chainId == st.chainId && index >= 0 && Position(st.nodes, env.nodeId) == Some(index)
  }

  /** A delivery of the last committed node that will enqueue the current node or repeat the same attempt. */
  predicate WillDispatch(st: ChainState, d: Sql.Delivery, phase: Phase) {
    match phase
    case Entered => d.recovered
    case CheckFailure(plan) => d.recovered && plan.TrySuccess?
    case CheckSuccess(_) => d.recovered
    case SuccessReceipt(seen, _) => d.recovered && seen.nextIndex == st.nextIndex && Live(seen)
    case Dispatching(node) =>
      (d.recovered || d.committed) && 0 <= st.nextIndex < |st.nodes| && node == st.nodes[st.nextIndex]
    case Returned(outcome, _) => (d.recovered || d.committed) && outcome.Errored? && outcome.failure.uncommitted
    case _ => false
  }

  /** The row repeats its delivery with recovery provenance, or its generation is bound to dispatch. */
  predicate Carrying(st: ChainState, db: Db, workers: Workers, row: Sql.Row<Envelope>) {
    match row.state
    case Dead => false
    case Pending => Sql.RecoveryProof(row.token).1
    case Processing =>
      && row.token.Some? && row.token.value in db.deliveries
      && (row.token.value in workers ==>
            WillDispatch(st, db.deliveries[row.token.value], workers[row.token.value].phase))
  }

  /** The generation that holds a row of the last committed node and is bound to dispatch. */
  predicate Bears(st: ChainState, db: Db, workers: Workers, id: nat, t: string) {
    && id in db.rows && At(st, db.rows[id].payload, st.nextIndex - 1)
    && db.rows[id].state == Sql.Processing && db.rows[id].token == Some(t)
    && t in db.deliveries && t in workers && WillDispatch(st, db.deliveries[t], workers[t].phase)
  }

  predicate CarriedBy(st: ChainState, db: Db, workers: Workers, id: nat) {
    && id in db.rows
    && (|| (At(st, db.rows[id].payload, st.nextIndex) && db.rows[id].state != Sql.Dead)
        || (At(st, db.rows[id].payload, st.nextIndex - 1) && Carrying(st, db, workers, db.rows[id])))
  }

  /** A chain whose creator has not yet learned the fate of its first delivery counts as carried by its creator. */
  ghost predicate Carried(s: System, c: string)
    requires c in s.ledger
  {
    || (c in s.starting && s.ledger[c].nextIndex == 0)
    || exists id :: CarriedBy(s.ledger[c], s.db, s.workers, id)
  }

  ghost predicate AllCarried(s: System) {
    forall c :: c in s.ledger && Live(s.ledger[c]) ==> Carried(s, c)
  }

  // ---------- Statements and the actions they come from ----------

  lemma StatementSource(s: System, a: Action)
    requires Enabled(s, a) && StatementOf(s, a).Some?
    ensures var step := StatementOf(s, a).value;
            match step
            case Settle(t, outcome, _) =>
              && a.Work? && a.token == t && s.workers[t].phase.Returned? && s.workers[t].phase.outcome == outcome
              && a.input.applied && s.workers[t].phase.tries < Sql.FINALIZE_RETRY_COUNT
            case Restore(t, _) =>
              && a.Work? && a.token == t && s.workers[t].phase.Returned? && a.input.applied
              && s.workers[t].phase.tries >= Sql.FINALIZE_RETRY_COUNT
            case Commit(t) => a.Work? && a.token == t && (s.workers[t].phase.Failing? || s.workers[t].phase.Advancing?)
            case Claim(id, token, now) => a == ClaimRow(id, token, now)
            case RecoverStale(now, cfg) => a == Recover(now, cfg)
            case Insert(_, _, _, _, _) =>
              a.Start? || (a.Work? && s.workers[a.token].phase.Dispatching?)
  {
  }

  // ---------- Leases stay exclusive ----------

  lemma WorkerKeepsRow(s: System, a: Action, t: string)
    requires Inv(s) && Enabled(s, a) && Exclusive(s, a)
    requires t in s.workers && t in s.db.deliveries && Sql.Owns(s.db.rows, s.db.deliveries[t])
    requires !s.workers[t].phase.Returned?
    ensures Holds(Do(s, a).db, t, s.workers[t])
  {
    ActionStates(s, a);
    if StatementOf(s, a).Some? {
      StatementSource(s, a);
      assert Sql.Inv(s.db) by { assert Unseal(0); }
      OwnerKeepsRow(s.db, StatementOf(s, a).value, t);
    }
  }

  lemma ReturnedStays(s: System, t: string, input: Input)
    requires t in s.workers && t in s.db.deliveries && t in WorkStep(s, t, input).workers
    requires s.workers[t].phase.Returned?
    ensures WorkStep(s, t, input).workers[t].phase.Returned?
  {
    SettleMoves(s, t, input);
  }

  lemma ClaimHolds(s: System, id: nat, token: string, now: int)
    requires Enabled(s, ClaimRow(id, token, now))
    ensures var s' := Do(s, ClaimRow(id, token, now));
            && token in s'.workers && Holds(s'.db, token, s'.workers[token])
            && s'.workers.Keys == s.workers.Keys + {token}
  {
  }

  lemma WorkerHolds(s: System, a: Action, t: string)
    requires Inv(s) && Enabled(s, a) && Exclusive(s, a) && t in s.workers && Holds(s.db, t, s.workers[t])
    requires t in Do(s, a).workers
    ensures Holds(Do(s, a).db, t, Do(s, a).workers[t])
  {
    WorkerFacts(s, t);
    if !s.workers[t].phase.Returned? {
      WorkerKeepsRow(s, a, t);
    }
    if a.Work? && a.token == t {
      if s.workers[t].phase.Returned? {
        ReturnedStays(s, t, a.input);
      }
    } else {
      OthersUnmoved(s, a, t);
    }
  }

  lemma StepKeepsHeld(s: System, a: Action)
    requires Inv(s) && Enabled(s, a) && Exclusive(s, a) && Held(s)
    ensures Held(Do(s, a))
  {
    forall t | t in Do(s, a).workers ensures Holds(Do(s, a).db, t, Do(s, a).workers[t]) {
      if t in s.workers {
        WorkerHolds(s, a, t);
      } else {
        WorkersComeFrom(s, a, t);
        ClaimHolds(s, a.id, t, a.now);
      }
    }
  }

  // ---------- A chain that does not advance stays carried ----------

  predicate SameSpot(a: ChainState, b: ChainState) {
    b.chainId == a.chainId && b.nodes == a.nodes && b.nextIndex == a.nextIndex
  }

  /** The owner of a row of the current node cannot settle it conclusively. */
  lemma CurrentUnresolved(s: System, c: string, id: nat, t: string)
    requires Inv(s) && c in s.ledger && Live(s.ledger[c]) && id in s.db.rows
    requires At(s.ledger[c], s.db.rows[id].payload, s.ledger[c].nextIndex)
    requires t in s.workers && t in s.db.deliveries && s.workers[t].phase.Returned? && s.db.deliveries[t].id == id
    ensures !Conclusive(s.db.deliveries[t], s.workers[t].phase.outcome)
  {
    WorkerFacts(s, t);
    assert WorkerOk(s.ledger, s.db, t, s.workers[t]) && s.ledger[c].chainId == c by { assert Unseal(0); }
  }

  lemma CurrentStays(s: System, a: Action, c: string, st': ChainState, id: nat)
    requires Inv(s) && Enabled(s, a) && c in s.ledger && Live(s.ledger[c]) && SameSpot(s.ledger[c], st')
    requires id in s.db.rows && At(s.ledger[c], s.db.rows[id].payload, s.ledger[c].nextIndex)
    requires s.db.rows[id].state != Sql.Dead
    ensures CarriedBy(st', Do(s, a).db, Do(s, a).workers, id)
  {
    ActionStates(s, a);
    var statement := StatementOf(s, a);
    if statement.Some? {
      assert Sql.Inv(s.db) by { assert Unseal(0); }
      StatementSource(s, a);
      if statement.value.Settle? && s.db.deliveries[statement.value.token].id == id {
        CurrentUnresolved(s, c, id, statement.value.token);
      }
      UnsettledRowStays(s.db, statement.value, id);
    }
  }

  lemma WaitingStays(s: System, a: Action, st: ChainState, st': ChainState, id: nat)
    requires Inv(s) && Enabled(s, a) && SameSpot(st, st')
    requires id in s.db.rows && At(st, s.db.rows[id].payload, st.nextIndex - 1)
    requires s.db.rows[id].state == Sql.Pending && Sql.RecoveryProof(s.db.rows[id].token).1
    ensures CarriedBy(st', Do(s, a).db, Do(s, a).workers, id)
  {
    ActionStates(s, a);
    var statement := StatementOf(s, a);
    if statement.Some? {
      assert Sql.Inv(s.db) by { assert Unseal(0); }
      StatementSource(s, a);
      PendingRowWaits(s.db, statement.value, id);
    }
  }

  lemma AbandonedStays(s: System, a: Action, st: ChainState, st': ChainState, id: nat, t: string)
    requires Inv(s) && Enabled(s, a) && SameSpot(st, st')
    requires id in s.db.rows && At(st, s.db.rows[id].payload, st.nextIndex - 1)
    requires s.db.rows[id].state == Sql.Processing && s.db.rows[id].token == Some(t)
    requires t in s.db.deliveries && t !in s.workers
    ensures CarriedBy(st', Do(s, a).db, Do(s, a).workers, id)
  {
    GoneStaysGone(s, a, t);
    BystanderRow(s, a, id, t);
  }

  lemma SpotKeepsBound(st: ChainState, st': ChainState, d: Sql.Delivery, phase: Phase)
    requires SameSpot(st, st') && WillDispatch(st, d, phase)
    ensures WillDispatch(st', d, phase)
  {
  }

  /** Nobody but its own generation changes a bound delivery, except that its lease may be recovered. */
  lemma BystanderStays(s: System, a: Action, st: ChainState, st': ChainState, id: nat, t: string)
    requires Inv(s) && Enabled(s, a) && SameSpot(st, st') && !(a.Work? && a.token == t)
    requires Bears(st, s.db, s.workers, id, t)
    ensures CarriedBy(st', Do(s, a).db, Do(s, a).workers, id)
  {
    OthersUnmoved(s, a, t);
    SpotKeepsBound(st, st', s.db.deliveries[t], s.workers[t].phase);
    BystanderRow(s, a, id, t);
  }

  lemma DeliveryStays(db: Db, step: Sql.Step<Envelope>, t: string)
    requires Sql.Enabled(db, step) && t in db.deliveries && !(step.Commit? && step.token == t)
    ensures t in Sql.Apply(db, step).deliveries && Sql.Apply(db, step).deliveries[t] == db.deliveries[t]
  {
  }

  /** A processing row stays with its generation, or its lease is recovered. */
  lemma BystanderRow(s: System, a: Action, id: nat, t: string)
    requires Inv(s) && Enabled(s, a) && !(a.Work? && a.token == t)
    requires id in s.db.rows && s.db.rows[id].state == Sql.Processing && s.db.rows[id].token == Some(t)
    requires t in s.db.deliveries
    ensures var db' := Do(s, a).db;
            && t in db'.deliveries && db'.deliveries[t] == s.db.deliveries[t]
            && id in db'.rows && db'.rows[id].payload == s.db.rows[id].payload
            && (|| db'.rows[id] == s.db.rows[id]
                || (db'.rows[id].state == Sql.Pending && Sql.RecoveryProof(db'.rows[id].token).1))
  {
    ActionStates(s, a);
    var statement := StatementOf(s, a);
    if statement.Some? {
      assert Sql.Inv(s.db) by { assert Unseal(0); }
      StatementSource(s, a);
      DeliveryStays(s.db, statement.value, t);
      ProcessingRowWaits(s.db, statement.value, id, t);
      if statement.value.RecoverStale? {
        RecoveredRowProves(s.db, id, statement.value.now);
      }
    }
  }

  // ---------- The bound delivery's own steps ----------

  lemma PointStaysBound(
      chains: Chains, receipts: Receipts, st: ChainState, index: nat, w: Worker, d: Sql.Delivery, input: Input)
    requires !w.phase.Failing? && !w.phase.Advancing? && !w.phase.Dispatching? && !w.phase.Returned?
    requires View(chains, st, w.env, index) && PhaseOk(st, index, d, w.phase)
    requires Live(st) && st.nextIndex == index + 1 && WillDispatch(st, d, w.phase)
    ensures WillDispatch(st, d, NextPoint(chains, receipts, w, d, input).0)
  {
  }

  lemma OwnPointStays(s: System, c: string, st': ChainState, id: nat, t: string, input: Input)
    requires Inv(s) && c in s.ledger && Live(s.ledger[c]) && SameSpot(s.ledger[c], st')
    requires Bears(s.ledger[c], s.db, s.workers, id, t)
    requires !s.workers[t].phase.Dispatching? && !s.workers[t].phase.Returned?
    ensures CarriedBy(st', WorkStep(s, t, input).db, WorkStep(s, t, input).workers, id)
  {
    var w := s.workers[t];
    WorkerFacts(s, t);
    RowBelongs(s, id, t);
    PointMoves(s, t, input);
    PointActs(s, t, input);
    PointStaysBound(s.chains, s.receipts, s.ledger[c], IndexOf(s.ledger, w.env), w, s.db.deliveries[t], input);
    SpotKeepsBound(s.ledger[c], st', s.db.deliveries[t], WorkStep(s, t, input).workers[t].phase);
  }

  /** A processing row and the worker that holds it speak of the same delivery. */
  lemma RowBelongs(s: System, id: nat, t: string)
    requires Inv(s) && id in s.db.rows && s.db.rows[id].state == Sql.Processing && s.db.rows[id].token == Some(t)
    requires t in s.workers
    ensures t in s.db.deliveries && s.db.deliveries[t].id == id && s.workers[t].env == s.db.rows[id].payload
    ensures Sql.Owns(s.db.rows, s.db.deliveries[t])
    ensures forall c :: c in s.ledger ==> s.ledger[c].chainId == c
  {
    assert Unseal(0);
    assert WorkerOk(s.ledger, s.db, t, s.workers[t]);
    assert Sql.DeliveryOk(s.db, t);
  }

  /** The delivery names the current node of its chain in what it dispatches. */
  lemma DispatchNames(s: System, c: string, id: nat, t: string, jobId: string)
    requires Inv(s) && c in s.ledger && Live(s.ledger[c])
    requires Bears(s.ledger[c], s.db, s.workers, id, t) && s.workers[t].phase.Dispatching?
    ensures var w := s.workers[t];
            At(s.ledger[c], NodeEnvelope(w.env.dispatchId, w.env.chainId, w.phase.node, jobId), s.ledger[c].nextIndex)
  {
    assert Sound(s.ledger[c]) by { assert Unseal(0); }
    RowBelongs(s, id, t);
    PositionOfNode(s.ledger[c].nodes, s.ledger[c].nextIndex);
  }

  lemma DispatchInserts(s: System, t: string, input: Input, next: Envelope)
    requires t in s.workers && t in s.db.deliveries && s.workers[t].phase.Dispatching?
    requires next == NodeEnvelope(s.workers[t].env.dispatchId, s.workers[t].env.chainId, s.workers[t].phase.node,
                                  input.jobId)
    requires Inserts(next, input.reply)
    ensures WorkStep(s, t, input).db == Sql.Apply(s.db, RowOf(next, input.now))
  {
  }

  /** Dispatch queues the current node, or leaves a same-attempt redelivery. */
  lemma OwnDispatchStays(s: System, c: string, st': ChainState, id: nat, t: string, input: Input)
    requires Inv(s) && c in s.ledger && Live(s.ledger[c]) && SameSpot(s.ledger[c], st')
    requires Bears(s.ledger[c], s.db, s.workers, id, t) && s.workers[t].phase.Dispatching?
    ensures exists i :: CarriedBy(st', WorkStep(s, t, input).db, WorkStep(s, t, input).workers, i)
  {
    var w, s' := s.workers[t], WorkStep(s, t, input);
    RowBelongs(s, id, t);
    DispatchNames(s, c, id, t, input.jobId);
    var next := NodeEnvelope(w.env.dispatchId, w.env.chainId, w.phase.node, input.jobId);
    if Inserts(next, input.reply) {
      DispatchInserts(s, t, input, next);
      InsertCarries(st', s.db, s'.workers, next, input.now);
    } else {
      DispatchRefused(s, t, input);
      assert CarriedBy(st', s'.db, s'.workers, id);
    }
  }

  lemma InsertCarries(st: ChainState, db: Db, workers: Workers, env: Envelope, now: int)
    requires env.job.options.retry >= 0 && At(st, env, st.nextIndex)
    ensures CarriedBy(st, Sql.Apply(db, RowOf(env, now)), workers, db.nextId)
  {
  }

  lemma DispatchRefused(s: System, t: string, input: Input)
    requires t in s.workers && t in s.db.deliveries && s.workers[t].phase.Dispatching?
    requires !Inserts(NodeEnvelope(s.workers[t].env.dispatchId, s.workers[t].env.chainId, s.workers[t].phase.node,
                                   input.jobId), input.reply)
    ensures var s' := WorkStep(s, t, input);
            t in s'.workers && s'.workers[t].phase == Refused("dispatch next chain node") && s'.db == s.db
  {
  }

  lemma RedeliveryCarries(st: ChainState, db: Db, workers: Workers, t: string, outcome: Outcome, now: int)
    requires Sql.Inv(db) && t in db.deliveries && Sql.Owns(db.rows, db.deliveries[t])
    requires outcome.Errored? && outcome.failure.uncommitted
    requires db.deliveries[t].recovered || db.deliveries[t].committed
    requires At(st, db.rows[db.deliveries[t].id].payload, st.nextIndex - 1)
    ensures CarriedBy(st, Sql.Apply(db, Sql.Settle(t, outcome, now)), workers, db.deliveries[t].id)
  {
  }

  lemma RepairCarries(st: ChainState, db: Db, workers: Workers, t: string, now: int)
    requires Sql.Inv(db) && t in db.deliveries && Sql.Owns(db.rows, db.deliveries[t]) && t !in workers
    requires At(st, db.rows[db.deliveries[t].id].payload, st.nextIndex - 1)
    ensures CarriedBy(st, Sql.Apply(db, Sql.Restore(t, now)), workers, db.deliveries[t].id)
  {
  }

  /** The repair statement is the last thing a worker does. */
  lemma SettleDropsWorker(s: System, t: string, input: Input)
    requires t in s.workers && t in s.db.deliveries && s.workers[t].phase.Returned?
    requires s.workers[t].phase.tries >= Sql.FINALIZE_RETRY_COUNT
    ensures t !in WorkStep(s, t, input).workers
  {
  }

  lemma OwnSettleStays(s: System, c: string, st': ChainState, id: nat, t: string, input: Input)
    requires Inv(s) && c in s.ledger && SameSpot(s.ledger[c], st')
    requires Bears(s.ledger[c], s.db, s.workers, id, t) && s.workers[t].phase.Returned?
    ensures CarriedBy(st', WorkStep(s, t, input).db, WorkStep(s, t, input).workers, id)
  {
    var p := s.workers[t].phase;
    assert Sql.Inv(s.db) by { assert Unseal(0); }
    RowBelongs(s, id, t);
    SettleMoves(s, t, input);
    WorkActs(s, t, input);
    var workers' := WorkStep(s, t, input).workers;
    if input.applied && p.tries < Sql.FINALIZE_RETRY_COUNT {
      RedeliveryCarries(st', s.db, workers', t, p.outcome, input.now);
    } else if input.applied {
      SettleDropsWorker(s, t, input);
      RepairCarries(st', s.db, workers', t, input.now);
    }
  }

  lemma OwnStepStays(s: System, c: string, st': ChainState, id: nat, t: string, input: Input)
    requires Inv(s) && c in s.ledger && Live(s.ledger[c]) && SameSpot(s.ledger[c], st')
    requires Bears(s.ledger[c], s.db, s.workers, id, t)
    ensures exists i :: CarriedBy(st', WorkStep(s, t, input).db, WorkStep(s, t, input).workers, i)
  {
    if s.workers[t].phase.Dispatching? {
      OwnDispatchStays(s, c, st', id, t, input);
    } else if s.workers[t].phase.Returned? {
      OwnSettleStays(s, c, st', id, t, input);
    } else {
      OwnPointStays(s, c, st', id, t, input);
    }
  }

  lemma BearerStays(s: System, a: Action, c: string, st': ChainState, id: nat, t: string)
    requires Inv(s) && Enabled(s, a) && c in s.ledger && Live(s.ledger[c]) && SameSpot(s.ledger[c], st')
    requires Bears(s.ledger[c], s.db, s.workers, id, t)
    ensures exists i :: CarriedBy(st', Do(s, a).db, Do(s, a).workers, i)
  {
    if a.Work? && a.token == t {
      OwnStepStays(s, c, st', id, t, a.input);
      assert Do(s, a) == WorkStep(s, t, a.input);
    } else {
      BystanderStays(s, a, s.ledger[c], st', id, t);
    }
  }

  lemma CarrierStays(s: System, a: Action, c: string, st': ChainState, id: nat)
    requires Inv(s) && Enabled(s, a) && c in s.ledger && Live(s.ledger[c]) && SameSpot(s.ledger[c], st')
    requires CarriedBy(s.ledger[c], s.db, s.workers, id)
    ensures exists i :: CarriedBy(st', Do(s, a).db, Do(s, a).workers, i)
  {
    var st, row := s.ledger[c], s.db.rows[id];
    if At(st, row.payload, st.nextIndex) && row.state != Sql.Dead {
      CurrentStays(s, a, c, st', id);
    } else if row.state == Sql.Pending {
      WaitingStays(s, a, st, st', id);
    } else if row.token.value !in s.workers {
      AbandonedStays(s, a, st, st', id, row.token.value);
    } else {
      BearerStays(s, a, c, st', id, row.token.value);
    }
  }

  // ---------- A chain that advances is carried by the delivery that advanced it ----------

  lemma FailCommitLedger(s: System, t: string, cause: Failure, tr: Transition<FailResult>)
    requires t in s.workers && t in s.db.deliveries
    ensures FailCommit(s, t, cause, tr).ledger
            == if tr.result.Ok? then s.ledger[tr.state.chainId := tr.state] else s.ledger
  {
  }

  lemma FailLedger(s: System, t: string, input: Input, cause: Failure)
    requires LedgerOk(s.chains, s.ledger) && t in s.workers && t in s.db.deliveries
    ensures var l := FailStep(s, t, input, cause).ledger;
            l.Keys == s.ledger.Keys && forall c :: c in s.ledger ==> SameSpot(s.ledger[c], l[c])
  {
    var env := s.workers[t].env;
    if !input.storeDown && env.chainId in s.chains {
      FailCommitLedger(s, t, cause, FailCall(s, t, cause, input.now));
      FailEffect(s.chains[env.chainId], Lookup(s.receipts, KeyOf(env)), env.nodeId, Some(cause.text),
                 ClaimOf(env, s.db.deliveries[t].attempt, t), input.now);
    }
  }

  lemma AdvanceLedger(s: System, t: string, input: Input)
    requires LedgerOk(s.chains, s.ledger) && t in s.workers && t in s.db.deliveries && s.workers[t].phase == Advancing
    ensures var l := AdvanceStep(s, t, input).ledger;
            && (Advances(s, t, input) ==> l == s.ledger[s.workers[t].env.chainId := AdvanceCall(s, t, input.now).state])
            && (!Advances(s, t, input) ==> l == s.ledger)
  {
    var env, d := s.workers[t].env, s.db.deliveries[t];
    if !input.storeDown && env.chainId in s.chains {
      AdvanceEffect(s.chains[env.chainId], Lookup(s.receipts, KeyOf(env)), env.nodeId, ClaimOf(env, d.attempt, t),
                    input.now);
      var tr := AdvanceCall(s, t, input.now);
      if tr.result.Ok? {
        var r := tr.result.value;
        var next := AfterAdvance(env, d.attempt, d.recovered, r);
        CommitLedger(s, t, tr.state, tr.written, r.claimedNow && r.receipt.Some?, next.0, next.1);
      }
    }
  }

  lemma CommitLedger(
      s: System, t: string, st: ChainState, written: Option<Receipt>, mark: bool, phase: Phase, facts: seq<Fact>)
    requires t in s.workers && t in s.db.deliveries
    ensures Commit(s, t, st, written, mark, phase, facts).ledger == s.ledger[st.chainId := st]
  {
  }

  lemma FailStartSpot(s: System, chainId: string, cause: string, now: int, c: string)
    requires LedgerOk(s.chains, s.ledger) && chainId in s.chains && |s.chains[chainId].nodes| > 0 && c in s.ledger
    ensures var s' := FailStartedChain(s, chainId, cause, now); c in s'.ledger && SameSpot(s.ledger[c], s'.ledger[c])
  {
    var st := s.chains[chainId];
    FailStartShape(s, chainId, cause, now);
    FailEffect(st, Lookup(s.receipts, ReceiptKey(ChainKind, chainId, st.nodes[0].nodeId)), st.nodes[0].nodeId,
               Some(cause), NO_CLAIM, now);
  }

  /** Only a fresh success claim moves a chain, and only its own chain. */
  lemma SpotMoves(s: System, a: Action, c: string)
    requires Inv(s) && Enabled(s, a) && c in s.ledger
    ensures c in Do(s, a).ledger
    ensures || SameSpot(s.ledger[c], Do(s, a).ledger[c])
            || (a.Work? && Advances(s, a.token, a.input) && s.workers[a.token].env.chainId == c)
  {
    assert LedgerOk(s.chains, s.ledger) by { assert Unseal(0); }
    match a {
      case Create(_, _) => {}
      case FailStart(chainId, cause, now) => FailStartSpot(s, chainId, cause, now, c);
      case Work(t, input) => WorkSpot(s, t, input, c);
      case _ => QuietHistory(s, a);
    }
  }

  lemma WorkSpot(s: System, t: string, input: Input, c: string)
    requires LedgerOk(s.chains, s.ledger) && t in s.workers && t in s.db.deliveries
    ensures c in WorkStep(s, t, input).ledger <==> c in s.ledger
    ensures || c !in s.ledger
            || SameSpot(s.ledger[c], WorkStep(s, t, input).ledger[c])
            || (Advances(s, t, input) && s.workers[t].env.chainId == c)
  {
    WorkShape(s, t, input);
    match s.workers[t].phase {
      case Failing(cause) => FailLedger(s, t, input, cause);
      case Advancing => AdvanceLedger(s, t, input);
      case _ => HistoryFrame(s, t, input);
    }
  }

  lemma FreshClaimDispatches(s: System, t: string, index: nat, now: int)
    requires Inv(s) && t in s.workers && t in s.db.deliveries && s.workers[t].env.chainId in s.chains
    requires Whole(Reached(s.ledger, s.workers[t].env)) && index == IndexOf(s.ledger, s.workers[t].env)
    requires var tr := AdvanceCall(s, t, now); tr.result.Ok? && tr.result.value.claimedNow && Live(tr.state)
    ensures var tr, d := AdvanceCall(s, t, now), s.db.deliveries[t];
            && tr.result.value.receipt.Some? && tr.state.chainId == s.workers[t].env.chainId
            && tr.state.nextIndex == index + 1 < |tr.state.nodes| && tr.state.nodes == s.ledger[tr.state.chainId].nodes
            && s.ledger[tr.state.chainId].nextIndex == index
            && AfterAdvance(s.workers[t].env, d.attempt, d.recovered, tr.result.value).0
               == Dispatching(tr.state.nodes[tr.state.nextIndex])
  {
    var env := s.workers[t].env;
    WorkerFacts(s, t);
    AdvanceEffect(s.chains[env.chainId], Lookup(s.receipts, KeyOf(env)), env.nodeId,
                  ClaimOf(env, s.db.deliveries[t].attempt, t), now);
    DispositionsPartition(s.chains[env.chainId], index);
  }

  lemma AdvancedWorker(s: System, t: string, input: Input)
    requires Advances(s, t, input) && AdvanceCall(s, t, input.now).result.value.receipt.Some?
    ensures var s', d := AdvanceStep(s, t, input), s.db.deliveries[t];
            && s'.db == Sql.Apply(s.db, Sql.Commit(t))
            && t in s'.workers
            && s'.workers[t].phase == AfterAdvance(s.workers[t].env, d.attempt, d.recovered,
                                                   AdvanceCall(s, t, input.now).result.value).0
  {
  }

  /**
   A row of the node being committed that will still repeat its delivery with provenance afterwards: the committing
   generation's own row, a recovered row that waits, a row whose worker vanished, or one bound to meet the receipt.
   */
  predicate Outlives(s: System, t: string, st: ChainState, id: nat) {
    && id in s.db.rows && At(st, s.db.rows[id].payload, st.nextIndex - 1)
    && match s.db.rows[id].state
       case Dead => false
       case Pending => Sql.RecoveryProof(s.db.rows[id].token).1
       case Processing =>
         && s.db.rows[id].token.Some? && s.db.rows[id].token.value in s.db.deliveries
         && var u := s.db.rows[id].token.value;
            u == t || (u in s.workers ==> WillDispatch(st, s.db.deliveries[u], s.workers[u].phase))
  }

  /** What a commit that leaves its chain live must find; it is decided before the step. */
  ghost predicate Continued(s: System, t: string, input: Input)
    requires Advances(s, t, input)
  {
    exists id :: Outlives(s, t, AdvanceCall(s, t, input.now).state, id)
  }

  /** A commit marks its delivery and moves its worker to the dispatch of the next node; nothing else moves. */
  lemma CommitFrame(s: System, t: string, input: Input)
    requires Inv(s) && Advances(s, t, input) && Live(AdvanceCall(s, t, input.now).state)
    ensures var s', st := WorkStep(s, t, input), AdvanceCall(s, t, input.now).state;
            && s'.db == Sql.Apply(s.db, Sql.Commit(t)) && t in s'.workers
            && 0 < st.nextIndex < |st.nodes| && s'.workers[t].phase == Dispatching(st.nodes[st.nextIndex])
            && SameOthers(s.workers, s'.workers, t)
  {
    WorkShape(s, t, input);
    WorkerFacts(s, t);
    FreshClaimDispatches(s, t, IndexOf(s.ledger, s.workers[t].env), input.now);
    AdvancedWorker(s, t, input);
    WorkActs(s, t, input);
  }

  predicate SameOthers(workers: Workers, workers': Workers, t: string) {
    && (forall u :: u in workers && u != t ==> u in workers' && workers'[u] == workers[u])
    && (forall u :: u in workers' ==> u in workers)
  }

  lemma RowOutlives(s: System, t: string, st: ChainState, workers': Workers, id: nat)
    requires t in s.db.deliveries && t in workers' && SameOthers(s.workers, workers', t)
    requires 0 <= st.nextIndex < |st.nodes| && workers'[t].phase == Dispatching(st.nodes[st.nextIndex])
    requires id in s.db.rows && At(st, s.db.rows[id].payload, st.nextIndex - 1)
    ensures Carrying(st, Sql.Apply(s.db, Sql.Commit(t)), workers', s.db.rows[id]) <==> Outlives(s, t, st, id)
  {
  }

  /** No row names the node that a commit has only just made current. */
  lemma NextNodeUnqueued(s: System, t: string, input: Input, id: nat)
    requires Inv(s) && Advances(s, t, input) && Live(AdvanceCall(s, t, input.now).state) && id in s.db.rows
    ensures var st := AdvanceCall(s, t, input.now).state; !At(st, s.db.rows[id].payload, st.nextIndex)
  {
    WorkerFacts(s, t);
    FreshClaimDispatches(s, t, IndexOf(s.ledger, s.workers[t].env), input.now);
    assert Whole(Reached(s.ledger, s.db.rows[id].payload)) by { assert Unseal(0); }
  }

  lemma CarriesIffOutlives(s: System, t: string, input: Input, workers': Workers, id: nat)
    requires Inv(s) && Advances(s, t, input) && Live(AdvanceCall(s, t, input.now).state) && id in s.db.rows
    requires t in workers' && SameOthers(s.workers, workers', t)
    requires var st := AdvanceCall(s, t, input.now).state;
             0 < st.nextIndex < |st.nodes| && workers'[t].phase == Dispatching(st.nodes[st.nextIndex])
    ensures var st := AdvanceCall(s, t, input.now).state;
            CarriedBy(st, Sql.Apply(s.db, Sql.Commit(t)), workers', id) <==> Outlives(s, t, st, id)
  {
    var st := AdvanceCall(s, t, input.now).state;
    NextNodeUnqueued(s, t, input, id);
    if At(st, s.db.rows[id].payload, st.nextIndex - 1) {
      RowOutlives(s, t, st, workers', id);
    }
  }

  lemma CommitCarriesIff(s: System, t: string, input: Input, workers': Workers)
    requires Inv(s) && Advances(s, t, input) && Live(AdvanceCall(s, t, input.now).state)
    requires t in workers' && SameOthers(s.workers, workers', t)
    requires var st := AdvanceCall(s, t, input.now).state;
             0 < st.nextIndex < |st.nodes| && workers'[t].phase == Dispatching(st.nodes[st.nextIndex])
    ensures var st := AdvanceCall(s, t, input.now).state;
            (exists id :: CarriedBy(st, Sql.Apply(s.db, Sql.Commit(t)), workers', id)) <==> Continued(s, t, input)
  {
    var st, db' := AdvanceCall(s, t, input.now).state, Sql.Apply(s.db, Sql.Commit(t));
    assert db'.rows == s.db.rows;
    forall id | id in s.db.rows ensures CarriedBy(st, db', workers', id) <==> Outlives(s, t, st, id) {
      CarriesIffOutlives(s, t, input, workers', id);
    }
  }

  /** A commit that leaves its chain live leaves it carried exactly when a row of the committed node outlives it. */
  lemma AdvanceCarriesIff(s: System, t: string, input: Input)
    requires Inv(s) && Advances(s, t, input) && Live(AdvanceCall(s, t, input.now).state)
    ensures var s' := WorkStep(s, t, input);
            (exists id :: CarriedBy(AdvanceCall(s, t, input.now).state, s'.db, s'.workers, id))
            <==> Continued(s, t, input)
  {
    CommitFrame(s, t, input);
    CommitCarriesIff(s, t, input, WorkStep(s, t, input).workers);
  }

  /** A commit by the generation that still owns its row always continues the chain. */
  lemma OwnerContinues(s: System, t: string, input: Input)
    requires Inv(s) && Advances(s, t, input) && Live(AdvanceCall(s, t, input.now).state)
    requires Sql.Owns(s.db.rows, s.db.deliveries[t])
    ensures Continued(s, t, input)
  {
    var id := s.db.deliveries[t].id;
    WorkerFacts(s, t);
    FreshClaimDispatches(s, t, IndexOf(s.ledger, s.workers[t].env), input.now);
    assert Sql.DeliveryOk(s.db, t) by { assert Unseal(0); }
    RowBelongs(s, id, t);
    assert Outlives(s, t, AdvanceCall(s, t, input.now).state, id);
  }

  // ---------- Starting ----------

  lemma StartCarries(s: System, c: string, jobId: string, reply: Reply, now: int)
    requires Inv(s) && Enabled(s, Start(c, jobId, reply, now)) && c in s.ledger && s.ledger[c].nextIndex == 0
    requires c !in StartChain(s, c, jobId, reply, now).starting
    ensures var s' := StartChain(s, c, jobId, reply, now); CarriedBy(s.ledger[c], s'.db, s'.workers, s.db.nextId)
  {
    assert s.chains[c] == s.ledger[c] && Sound(s.ledger[c]) && s.ledger[c].chainId == c by { assert Unseal(0); }
    PositionOfNode(s.chains[c].nodes, 0);
  }

  lemma FailStartEnds(s: System, c: string, cause: string, now: int)
    requires Inv(s) && Enabled(s, FailStart(c, cause, now)) && c in s.ledger && s.ledger[c].nextIndex == 0
    ensures c in FailStartedChain(s, c, cause, now).ledger && !Live(FailStartedChain(s, c, cause, now).ledger[c])
  {
    assert s.chains[c] == s.ledger[c] && Sound(s.ledger[c]) && s.ledger[c].chainId == c by { assert Unseal(0); }
    FailStartShape(s, c, cause, now);
    DispositionsPartition(s.chains[c], 0);
  }

  lemma StartingStays(s: System, a: Action, c: string)
    requires Inv(s) && Enabled(s, a) && c in s.ledger && c in s.starting && s.ledger[c].nextIndex == 0
    requires c in Do(s, a).ledger && Live(Do(s, a).ledger[c]) && SameSpot(s.ledger[c], Do(s, a).ledger[c])
    ensures Carried(Do(s, a), c)
  {
    StartingFrame(s, a, c);
    if a.FailStart? && a.chainId == c {
      FailStartEnds(s, c, a.cause, a.now);
    } else if a.Start? && a.chainId == c && c !in Do(s, a).starting {
      StartCarries(s, c, a.jobId, a.reply, a.now);
    }
  }

  lemma StartingFrame(s: System, a: Action, c: string)
    requires Enabled(s, a) && c in s.starting
    ensures c in Do(s, a).starting || (a.Start? && a.chainId == c) || (a.FailStart? && a.chainId == c)
  {
    if a.Work? {
      WorkActs(s, a.token, a.input);
    }
  }

  // ---------- The theorem ----------

  /** If this action commits a node and leaves its chain live, a row of that node outlives the commit. */
  ghost predicate Safe(s: System, a: Action) {
    a.Work? && Advances(s, a.token, a.input) && Live(AdvanceCall(s, a.token, a.input.now).state) ==>
      Continued(s, a.token, a.input)
  }

  lemma AdvanceMoves(s: System, t: string, input: Input)
    requires Inv(s) && Advances(s, t, input)
    ensures var c, s' := s.workers[t].env.chainId, WorkStep(s, t, input);
            c in s.ledger && c in s'.ledger && s'.ledger[c] == AdvanceCall(s, t, input.now).state
  {
    assert LedgerOk(s.chains, s.ledger) by { assert Unseal(0); }
    WorkShape(s, t, input);
    AdvanceLedger(s, t, input);
  }

  lemma ChainStaysCarried(s: System, a: Action, c: string)
    requires Inv(s) && Enabled(s, a) && Safe(s, a) && c in s.ledger && Live(s.ledger[c]) && Carried(s, c)
    requires c in Do(s, a).ledger && Live(Do(s, a).ledger[c])
    ensures Carried(Do(s, a), c)
  {
    SpotMoves(s, a, c);
    if a.Work? && Advances(s, a.token, a.input) && s.workers[a.token].env.chainId == c {
      AdvanceMoves(s, a.token, a.input);
      AdvanceCarriesIff(s, a.token, a.input);
    } else if c in s.starting && s.ledger[c].nextIndex == 0 {
      StartingStays(s, a, c);
    } else {
      var id :| CarriedBy(s.ledger[c], s.db, s.workers, id);
      CarrierStays(s, a, c, Do(s, a).ledger[c], id);
    }
  }

  lemma CreatedChain(s: System, a: Action, c: string)
    requires Enabled(s, a) && c !in s.ledger && c in Do(s, a).ledger && Inv(s)
    ensures a.Create? && a.record.chainId == c
    ensures c in Do(s, a).starting && Do(s, a).ledger[c].nextIndex == 0
  {
    assert LedgerOk(s.chains, s.ledger) by { assert Unseal(0); }
    match a {
      case Create(_, _) => {}
      case FailStart(chainId, cause, now) =>
        FailStartShape(s, chainId, cause, now);
        FailStartReady(s, chainId, cause, now);
        assert false;
      case Work(t, input) => WorkSpot(s, t, input, c); assert false;
      case _ => QuietHistory(s, a); assert false;
    }
  }

  lemma StepKeepsCarried(s: System, a: Action)
    requires Inv(s) && Enabled(s, a) && Safe(s, a) && AllCarried(s)
    ensures AllCarried(Do(s, a))
  {
    StepGrows(s, a);
    forall c | c in Do(s, a).ledger && Live(Do(s, a).ledger[c]) ensures Carried(Do(s, a), c) {
      if c in s.ledger {
        ChainStaysCarried(s, a, c);
      } else {
        CreatedChain(s, a, c);
      }
    }
  }

  /** A commit that no row outlives leaves its chain without a carrier that survives its workers. */
  lemma UnsafeStepUncovers(s: System, a: Action)
    requires Inv(s) && Enabled(s, a) && !Safe(s, a)
    ensures !AllCarried(Do(s, a))
  {
    var c := s.workers[a.token].env.chainId;
    AdvanceMoves(s, a.token, a.input);
    AdvanceCarriesIff(s, a.token, a.input);
    CommitFrame(s, a.token, a.input);
    assert !Carried(Do(s, a), c);
  }

  /** Every chain is carried in every state the run passes through. */
  ghost predicate CarriedThroughout(s: System, actions: seq<Action>)
    decreases |actions|
  {
    && AllCarried(s)
    && (actions != [] && Enabled(s, actions[0]) ==> CarriedThroughout(Do(s, actions[0]), actions[1..]))
  }

  /** Every commit of the run finds a row that outlives it. */
  ghost predicate SafeThroughout(s: System, actions: seq<Action>)
    decreases |actions|
  {
    actions != [] && Enabled(s, actions[0]) ==>
      Safe(s, actions[0]) && SafeThroughout(Do(s, actions[0]), actions[1..])
  }

  lemma {:induction false} CarriedIffSafe(s: System, actions: seq<Action>)
    requires Inv(s) && AllCarried(s)
    ensures CarriedThroughout(s, actions) <==> SafeThroughout(s, actions)
    decreases |actions|
  {
    if actions != [] && Enabled(s, actions[0]) {
      StepKeepsInv(s, actions[0]);
      if Safe(s, actions[0]) {
        StepKeepsCarried(s, actions[0]);
        CarriedIffSafe(Do(s, actions[0]), actions[1..]);
      } else {
        UnsafeStepUncovers(s, actions[0]);
      }
    }
  }

  /**
   No lost continuation, exactly: in every state of a run every chain that is neither completed nor failed is carried,
   whatever replies were lost, workers vanished, inserts were rejected or settlements failed, if and only if each
   commit of the run finds a row of its node that outlives it. A chain whose creator has not yet learned the fate of its
   first delivery counts as carried by its creator.
   */
  lemma NoLostContinuation(start: System, actions: seq<Action>)
    requires Initial(start)
    ensures CarriedThroughout(start, actions) <==> SafeThroughout(start, actions)
  {
    InitialInv(start);
    CarriedIffSafe(start, actions);
  }

  // ---------- Sufficient conditions ----------

  /** Every commit of the run is made by a generation that still owns its row. */
  ghost predicate CommitsOwnRows(s: System, actions: seq<Action>)
    decreases |actions|
  {
    actions != [] && Enabled(s, actions[0]) ==>
      && (actions[0].Work? && Advances(s, actions[0].token, actions[0].input) ==>
            Sql.Owns(s.db.rows, s.db.deliveries[actions[0].token]))
      && CommitsOwnRows(Do(s, actions[0]), actions[1..])
  }

  lemma {:induction false} OwnedCommitsAreSafe(s: System, actions: seq<Action>)
    requires Inv(s) && CommitsOwnRows(s, actions)
    ensures SafeThroughout(s, actions)
    decreases |actions|
  {
    if actions != [] && Enabled(s, actions[0]) {
      var a := actions[0];
      if a.Work? && Advances(s, a.token, a.input) && Live(AdvanceCall(s, a.token, a.input.now).state) {
        OwnerContinues(s, a.token, a.input);
      }
      StepKeepsInv(s, a);
      OwnedCommitsAreSafe(Do(s, a), actions[1..]);
    }
  }

  lemma {:induction false} ExclusiveCommitsOwn(s: System, actions: seq<Action>, end: System)
    requires Inv(s) && Held(s) && IsExclusiveRun(s, actions, end)
    ensures CommitsOwnRows(s, actions)
    decreases |actions|
  {
    if actions != [] {
      var a := actions[0];
      if a.Work? && Advances(s, a.token, a.input) {
        assert Holds(s.db, a.token, s.workers[a.token]);
      }
      StepKeepsInv(s, a);
      StepKeepsHeld(s, a);
      ExclusiveCommitsOwn(Do(s, a), actions[1..], end);
    }
  }

  /** Commits that own their rows lose no continuation, and so does a run whose leases outlive their handlers. */
  lemma OwnedCommitsSuffice(start: System, actions: seq<Action>, end: System)
    requires Initial(start)
    ensures IsExclusiveRun(start, actions, end) ==> CommitsOwnRows(start, actions)
    ensures CommitsOwnRows(start, actions) ==> CarriedThroughout(start, actions)
  {
    InitialInv(start);
    if IsExclusiveRun(start, actions, end) {
      ExclusiveCommitsOwn(start, actions, end);
    }
    if CommitsOwnRows(start, actions) {
      OwnedCommitsAreSafe(start, actions);
      NoLostContinuation(start, actions);
    }
  }
}
