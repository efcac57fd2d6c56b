/** A recovered batch delivery that meets its member's receipt replays it without running the handler. */
module BatchReplay {
  import opened Common
  import opened Attempts
  import opened WorkflowTypes
  import opened BatchStore
  import opened QueueFrames
  import opened BatchEngine
  import opened BatchTheorems
  import Sql = SqlRows

  predicate Refuses(outcome: Outcome) {
    outcome.Errored? && outcome.failure.uncommitted
  }

  /** What a receipt makes of its delivery: nil, a permanent failure, or a same-attempt redelivery. */
  predicate Echoes(r: Receipt, outcome: Outcome) {
    || Refuses(outcome)
    || (r.outcome == MemberSucceeded && outcome == Succeeded)
    || (r.outcome == MemberFailed && outcome == Permanent(ALREADY_FAILED))
  }

  /** The batch was read after the receipt was written. */
  predicate Follows(seen: BatchState, r: Receipt) {
    (r.aggregateCompleted ==> seen.completed) && (r.aggregateCancelled ==> seen.cancelled)
  }

  /** The receipt owns a clean completion of a batch that was cancelled by the time it was read. */
  predicate Overtaken(seen: BatchState, r: Receipt) {
    r.aggregateCompleted && !r.aggregateCancelled && seen.cancelled
  }

  predicate Replays(r: Receipt, d: Sql.Delivery, phase: Phase) {
    match phase
    case Entered => d.recovered
    case CheckState(plan) => plan == RunHandler
    case CheckReceipt(seen, plan) =>
      && plan == RunHandler && RecoverableState(seen) && Follows(seen, r)
      && seen.dispatchId == r.workflowDispatchId && seen.createdAt == r.workflowCreatedAt
    case Returned(outcome, _) => Echoes(r, outcome)
    case _ => false
  }

  /** While the batch is readable, the checks accept the batch and its receipt unless a cancellation overtook it. */
  lemma PointReplays(b: Batch, jobs: Jobs, stored: bool, w: Worker, d: Sql.Delivery, input: Input)
    requires BatchOk(b, jobs) && MemberOk(b, jobs, w.env) && w.env.jobId in b.receipts && !w.phase.Returned?
    requires Replays(b.receipts[w.env.jobId], d, w.phase)
    ensures var e := PointEffect(b, stored, w, d, input);
            && e.batch == b && !e.commits && Replays(b.receipts[w.env.jobId], d, e.phase)
            && (stored && !input.storeDown ==>
                  (e.phase.Returned? && Refuses(e.phase.outcome) <==>
                   w.phase.CheckReceipt? && Overtaken(w.phase.seen, b.receipts[w.env.jobId])))
  {
    if w.phase.CheckReceipt? {
      ReceiptReplays(b, jobs, stored, w, d, input);
    } else {
      HealthyMember(b, w.env.jobId);
      assert Balanced(b) by { assert Unseal(0); }
      BalancedIsRecoverable(b);
    }
  }

  lemma ReceiptReplays(b: Batch, jobs: Jobs, stored: bool, w: Worker, d: Sql.Delivery, input: Input)
    requires BatchOk(b, jobs) && MemberOk(b, jobs, w.env) && w.env.jobId in b.receipts && w.phase.CheckReceipt?
    requires Replays(b.receipts[w.env.jobId], d, w.phase)
    ensures var e := PointEffect(b, stored, w, d, input);
            && e.batch == b && !e.commits && Replays(b.receipts[w.env.jobId], d, e.phase)
            && (stored && !input.storeDown ==>
                  (e.phase.Returned? && Refuses(e.phase.outcome) <==>
                   Overtaken(w.phase.seen, b.receipts[w.env.jobId])))
  {
    HealthyMember(b, w.env.jobId);
  }

  predicate Bound(s: System, t: string) {
    && t in s.workers && t in s.db.deliveries && s.workers[t].env.jobId in s.batch.receipts
    && Replays(s.batch.receipts[s.workers[t].env.jobId], s.db.deliveries[t], s.workers[t].phase)
  }

  /** Receipts are final and claims are not rewritten. */
  predicate Kept(s: System, s': System) {
    && (forall id :: id in s.batch.receipts ==>
          id in s'.batch.receipts && s'.batch.receipts[id] == s.batch.receipts[id])
    && (forall t :: t in s.db.deliveries ==>
          t in s'.db.deliveries && SameClaim(s.db.deliveries[t], s'.db.deliveries[t]))
  }

  lemma GrowthKeepsReceipts(a: Batch, b: Batch)
    requires Healthy(a) && Grows(a, b)
    ensures forall id :: id in a.receipts ==> id in b.receipts && b.receipts[id] == a.receipts[id]
  {
    forall id | id in a.receipts ensures id in b.receipts && b.receipts[id] == a.receipts[id] {
      HealthyMember(a, id);
    }
  }

  lemma PointShape(s: System, t: string, input: Input)
    requires t in s.workers && t in s.db.deliveries && !s.workers[t].phase.Returned?
    ensures var s' := PointStep(s, t, input);
            && s'.batch == PointEffect(s.batch, s.stored, s.workers[t], s.db.deliveries[t], input).batch
            && forall u :: u in s.db.deliveries ==>
                 u in s'.db.deliveries && SameClaim(s.db.deliveries[u], s'.db.deliveries[u])
  {
  }

  lemma PointKept(s: System, t: string, input: Input)
    requires Inv(s) && t in s.workers && t in s.db.deliveries && !s.workers[t].phase.Returned?
    ensures Whole(Kept(s, PointStep(s, t, input)))
  {
    var w, d := s.workers[t], s.db.deliveries[t];
    WorkerFacts(s, t);
    PointOk(s.batch, s.jobs, s.stored, w, d, input);
    GrowthKeepsReceipts(s.batch, PointEffect(s.batch, s.stored, w, d, input).batch);
    PointShape(s, t, input);
  }

  lemma StepKept(s: System, a: Action)
    requires Inv(s) && Enabled(s, a)
    ensures Whole(Kept(s, Do(s, a)))
  {
    if a.Work? && !s.workers[a.token].phase.Returned? {
      PointKept(s, a.token, a.input);
    }
  }

  lemma OthersUnmoved(s: System, a: Action, t: string)
    requires Enabled(s, a) && t in s.workers && t in s.db.deliveries && !(a.Work? && a.token == t)
    ensures t in Do(s, a).workers ==> Do(s, a).workers[t] == s.workers[t]
  {
  }

  lemma OwnStep(s: System, t: string, input: Input)
    requires Inv(s) && Bound(s, t)
    ensures var s', r := Do(s, Work(t, input)), s.batch.receipts[s.workers[t].env.jobId];
            t in s'.workers ==>
              && s'.workers[t].env == s.workers[t].env
              && Whole(Replays(r, s.db.deliveries[t], s'.workers[t].phase))
  {
    if !s.workers[t].phase.Returned? {
      WorkerFacts(s, t);
      PointReplays(s.batch, s.jobs, s.stored, s.workers[t], s.db.deliveries[t], input);
    }
  }

  lemma StepKeepsBound(s: System, a: Action, t: string)
    requires Inv(s) && Enabled(s, a) && Bound(s, t) && t in Do(s, a).workers
    ensures Bound(Do(s, a), t) && Do(s, a).workers[t].env == s.workers[t].env
  {
    StepKept(s, a);
    if a.Work? && a.token == t {
      OwnStep(s, t, a.input);
    } else {
      OthersUnmoved(s, a, t);
    }
  }

  lemma GoneStaysGone(s: System, a: Action, t: string)
    requires Enabled(s, a) && t in s.db.deliveries && t !in s.workers
    ensures t !in Do(s, a).workers && t in Do(s, a).db.deliveries
  {
  }

  lemma {:induction false} GoneForever(s: System, actions: seq<Action>, end: System, t: string)
    requires IsRun(s, actions, end) && t in s.db.deliveries && t !in s.workers
    ensures t !in end.workers
    decreases |actions|
  {
    if actions != [] {
      GoneStaysGone(s, actions[0], t);
      GoneForever(Do(s, actions[0]), actions[1..], end, t);
    }
  }

  lemma {:induction false} BoundForever(s: System, actions: seq<Action>, end: System, t: string)
    requires Inv(s) && IsRun(s, actions, end) && Bound(s, t) && t in end.workers
    ensures Inv(end) && Bound(end, t)
    ensures s.workers[t].env.jobId in end.batch.receipts && end.workers[t].env == s.workers[t].env
    ensures end.batch.receipts[s.workers[t].env.jobId] == s.batch.receipts[s.workers[t].env.jobId]
    decreases |actions|
  {
    if actions != [] {
      var s' := Do(s, actions[0]);
      StepKeepsInv(s, actions[0]);
      StepKept(s, actions[0]);
      if t in s'.workers {
        StepKeepsBound(s, actions[0], t);
        BoundForever(s', actions[1..], end, t);
      } else {
        GoneForever(s', actions[1..], end, t);
      }
    }
  }

  /**
   A recovered delivery that enters after its member has a receipt never starts the member, runs the handler or settles
   the batch again. It returns the receipt's outcome, and while the batch can be read a check refuses it exactly when
   its receipt owns a clean completion and the batch it has read was cancelled.
   */
  lemma ReceiptBarsRerun(
      start: System, record: BatchRecord, now: int, before: seq<Action>, s: System, later: seq<Action>, end: System,
      t: string, input: Input)
    requires Initial(start, record, now) && IsRun(start, before, s) && IsRun(s, later, end)
    requires t in s.workers && t in s.db.deliveries && s.workers[t].phase == Entered && s.db.deliveries[t].recovered
    requires s.workers[t].env.jobId in s.batch.receipts && t in end.workers
    ensures var p := end.workers[t].phase; !p.Starting? && !p.Execute? && !p.Failing? && !p.Succeeding?
    ensures var p := end.workers[t].phase;
            p.Returned? ==> Echoes(s.batch.receipts[s.workers[t].env.jobId], p.outcome)
    ensures var w := end.workers[t];
            !w.phase.Returned? && end.stored && !input.storeDown && t in end.db.deliveries ==>
              var e := PointEffect(end.batch, end.stored, w, end.db.deliveries[t], input);
              && e.batch == end.batch && !e.commits
              && (e.phase.Returned? && Refuses(e.phase.outcome) <==>
                  w.phase.CheckReceipt? && Overtaken(w.phase.seen, s.batch.receipts[s.workers[t].env.jobId]))
  {
    Reachable(start, record, now, before, s);
    BoundForever(s, later, end, t);
    if !end.workers[t].phase.Returned? {
      WorkerFacts(end, t);
      PointReplays(end.batch, end.jobs, end.stored, end.workers[t], end.db.deliveries[t], input);
    }
  }
}
