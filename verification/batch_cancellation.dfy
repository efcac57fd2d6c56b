/**
 Cancellation of a batch that has already completed. The dispatcher reads the batch and cancels it in two store calls,
 so a settlement may complete the batch in between. Members, facts and counters are unaffected; what changes is that
 the completion owner's receipt no longer fits the batch, so that every later recovery check of its delivery refuses it.
 */
module BatchCancellation {
  import opened Common
  import opened WorkflowTypes
  import opened Recovery
  import opened BatchStore
  import opened BatchEngine
  import opened BatchTheorems
  import R = BatchReplay
  import Sql = SqlRows

  // ---------- The store call of an action ----------

  function SettleCall(w: Worker, d: Sql.Delivery, now: int): Call
    requires w.phase.Failing? || w.phase.Succeeding?
  {
    Settle(w.env.jobId, if w.phase.Failing? then MemberFailed else MemberSucceeded, ClaimOf(w.env, d.attempt, d.token),
           now)
  }

  function CallOf(s: System, a: Action): Option<Call>
    requires Enabled(s, a)
  {
    match a
    case Cancel(now) => if s.stored then Some(Call.Cancel(now)) else None
    case Work(t, input) =>
      var w := s.workers[t];
      if input.storeDown || !s.stored || w.env.jobId !in s.batch.jobs then None
      else if w.phase.Starting? then Some(Begin(w.env.jobId, input.now))
      else if w.phase.Failing? || w.phase.Succeeding? then Some(SettleCall(w, s.db.deliveries[t], input.now))
      else None
    case _ => None
  }

  lemma PointCalls(b: Batch, stored: bool, w: Worker, d: Sql.Delivery, input: Input)
    requires !w.phase.Returned?
    ensures var e := PointEffect(b, stored, w, d, input);
            if input.storeDown || !stored || w.env.jobId !in b.jobs then e.batch == b
            else if w.phase.Starting? then e.batch == Perform(b, Begin(w.env.jobId, input.now))
            else if w.phase.Failing? || w.phase.Succeeding? then e.batch == Perform(b, SettleCall(w, d, input.now))
            else e.batch == b
  {
  }

  /** Every action makes at most one call on the batch. */
  lemma ActionCalls(s: System, a: Action)
    requires Enabled(s, a)
    ensures Do(s, a).batch == if CallOf(s, a).Some? then Perform(s.batch, CallOf(s, a).value) else s.batch
  {
    if a.Work? && !s.workers[a.token].phase.Returned? {
      PointCalls(s.batch, s.stored, s.workers[a.token], s.db.deliveries[a.token], a.input);
      R.PointShape(s, a.token, a.input);
    }
  }

  lemma CallsAreComplete(s: System, a: Action)
    requires Inv(s) && Enabled(s, a) && CallOf(s, a).Some? && CallOf(s, a).value.Settle?
    ensures CallOf(s, a).value.claim.Valid()
  {
    WorkerFacts(s, a.token);
  }

  // ---------- Late cancellation over runs ----------

  /** The action cancels a batch that has completed without cancellation. */
  predicate CancelsCompleted(s: System, a: Action) {
    a.Cancel? && s.stored && s.batch.state.completed && !s.batch.state.cancelled
  }

  ghost predicate RunCancelsLate(s: System, actions: seq<Action>)
    decreases |actions|
  {
    && actions != [] && Enabled(s, actions[0])
    && (CancelsCompleted(s, actions[0]) || RunCancelsLate(Do(s, actions[0]), actions[1..]))
  }

  lemma StepShapes(s: System, a: Action)
    requires Inv(s) && Enabled(s, a) && ShapesOk(s.batch)
    ensures ShapesOk(Do(s, a).batch) <==> !CancelsCompleted(s, a)
  {
    ActionCalls(s, a);
    if CallOf(s, a).Some? {
      assert Balanced(s.batch) && Accounted(s.batch) by { assert Unseal(0); }
      if CallOf(s, a).value.Settle? {
        CallsAreComplete(s, a);
      }
      PerformKeepsShapes(s.batch, CallOf(s, a).value);
    }
  }

  lemma LateCancelDisagreement(s: System, a: Action) returns (t: string)
    requires Inv(s) && Enabled(s, a) && ShapesOk(s.batch) && CancelsCompleted(s, a)
    ensures Disagrees(Do(s, a).batch, t)
  {
    assert Accounted(s.batch) by { assert Unseal(0); }
    t :| t in Terminals(s.batch);
    assert ReceiptTrue(s.batch, t, s.batch.receipts[t]) && ShapeOk(s.batch.state, s.batch.receipts[t]);
  }

  lemma StepDisagrees(s: System, a: Action, t: string)
    requires Enabled(s, a) && Disagrees(s.batch, t)
    ensures Disagrees(Do(s, a).batch, t)
  {
    ActionCalls(s, a);
    if CallOf(s, a).Some? {
      CallDisagrees(s.batch, CallOf(s, a).value, t);
    }
  }

  lemma CallDisagrees(b: Batch, call: Call, t: string)
    requires Disagrees(b, t)
    ensures Disagrees(Perform(b, call), t)
  {
  }

  lemma {:induction false} RunDisagrees(s: System, actions: seq<Action>, end: System, t: string)
    requires IsRun(s, actions, end) && Disagrees(s.batch, t)
    ensures Disagrees(end.batch, t)
    decreases |actions|
  {
    if actions != [] {
      StepDisagrees(s, actions[0], t);
      RunDisagrees(Do(s, actions[0]), actions[1..], end, t);
    }
  }

  /** Over every run the receipts fit the batch if and only if no action cancelled it after it had completed cleanly. */
  lemma {:induction false} ShapesFitIffNoLateCancel(s: System, actions: seq<Action>, end: System)
    requires Inv(s) && ShapesOk(s.batch) && IsRun(s, actions, end)
    ensures ShapesOk(end.batch) <==> !RunCancelsLate(s, actions)
    decreases |actions|
  {
    if actions != [] {
      StepKeepsInv(s, actions[0]);
      StepShapes(s, actions[0]);
      if CancelsCompleted(s, actions[0]) {
        var t := LateCancelDisagreement(s, actions[0]);
        RunDisagrees(Do(s, actions[0]), actions[1..], end, t);
      } else {
        ShapesFitIffNoLateCancel(Do(s, actions[0]), actions[1..], end);
      }
    }
  }

  /** One receipt fits the batch unless it owns completion and some receipt does not fit. */
  lemma ReceiptFits(b: Batch, id: string)
    requires Healthy(b) && id in b.receipts
    ensures ShapeOk(b.state, b.receipts[id]) <==> !b.receipts[id].aggregateCompleted || ShapesOk(b)
  {
    assert Unseal(0);
    assert ReceiptTrue(b, id, b.receipts[id]);
    if b.receipts[id].aggregateCompleted && ShapeOk(b.state, b.receipts[id]) {
      forall i | i in b.receipts ensures ShapeOk(b.state, b.receipts[i]) {
        assert ReceiptTrue(b, i, b.receipts[i]) && id in Terminals(b);
        assert b.receipts[i].aggregateCompleted ==> i in Terminals(b);
      }
    }
  }

  lemma ReadMoves(s: System, t: string, read: Input)
    requires Inv(s) && t in s.workers && t in s.db.deliveries && s.workers[t].phase.CheckState?
    requires s.stored && !read.storeDown
    ensures var s' := Do(s, Work(t, read));
            && t in s'.workers
            && s'.workers[t] == s.workers[t].(phase := CheckReceipt(s.batch.state, s.workers[t].phase.plan))
  {
    WorkerFacts(s, t);
    assert Balanced(s.batch) by { assert Unseal(0); }
    BalancedIsRecoverable(s.batch);
    assert s.workers[t].facts + [] == s.workers[t].facts;
  }

  predicate Leaves(actions: seq<Action>, t: string) {
    forall i :: 0 <= i < |actions| ==> !(actions[i].Work? && actions[i].token == t)
  }

  lemma {:induction false} WorkerWaits(s: System, actions: seq<Action>, end: System, t: string)
    requires Inv(s) && IsRun(s, actions, end) && Leaves(actions, t) && t in s.workers && t in end.workers
    ensures Inv(end) && t in end.db.deliveries && end.workers[t] == s.workers[t]
    ensures s.workers[t].env.jobId in s.batch.receipts ==>
              && s.workers[t].env.jobId in end.batch.receipts
              && end.batch.receipts[s.workers[t].env.jobId] == s.batch.receipts[s.workers[t].env.jobId]
    decreases |actions|
  {
    WorkerFacts(s, t);
    if actions != [] {
      var a, s' := actions[0], Do(s, actions[0]);
      StepKeepsInv(s, a);
      R.StepKept(s, a);
      assert forall i :: 0 <= i < |actions[1..]| ==> actions[1..][i] == actions[i + 1];
      if t in s'.workers {
        R.OthersUnmoved(s, a, t);
        WorkerWaits(s', actions[1..], end, t);
      } else {
        R.GoneForever(s', actions[1..], end, t);
      }
    }
  }

  /** The receipt check refuses exactly a receipt that does not fit the batch that was read. */
  lemma CheckRefusesIff(b: Batch, jobs: Jobs, w: Worker, d: Sql.Delivery, input: Input)
    requires BatchOk(b, jobs) && MemberOk(b, jobs, w.env) && w.env.jobId in b.receipts && w.phase.CheckReceipt?
    requires w.phase.seen.dispatchId == b.state.dispatchId && w.phase.seen.createdAt == b.state.createdAt
    requires !input.storeDown
    ensures var e := PointEffect(b, true, w, d, input);
            && e.phase.Returned?
            && (R.Refuses(e.phase.outcome) <==> !ShapeOk(w.phase.seen, b.receipts[w.env.jobId]))
  {
    HealthyMember(b, w.env.jobId);
  }

  lemma FitsUnlessCancelledLate(start: System, before: seq<Action>, s: System, id: string)
    requires Inv(start) && ShapesOk(start.batch) && IsRun(start, before, s) && Inv(s) && id in s.batch.receipts
    ensures ShapeOk(s.batch.state, s.batch.receipts[id]) <==>
              !(s.batch.receipts[id].aggregateCompleted && RunCancelsLate(start, before))
  {
    ShapesFitIffNoLateCancel(start, before, s);
    assert Healthy(s.batch) by { assert Unseal(0); }
    ReceiptFits(s.batch, id);
  }

  /** Both states name the incarnation the receipt names. */
  lemma SameIncarnation(a: Batch, b: Batch, jobs: Jobs, id: string)
    requires BatchOk(a, jobs) && BatchOk(b, jobs) && id in a.receipts && id in b.receipts
    requires b.receipts[id] == a.receipts[id]
    ensures b.state.dispatchId == a.state.dispatchId && b.state.createdAt == a.state.createdAt
  {
    HealthyMember(a, id);
    HealthyMember(b, id);
  }

  lemma {:induction false} JobsStay(s: System, actions: seq<Action>, end: System)
    requires IsRun(s, actions, end)
    ensures end.jobs == s.jobs
    decreases |actions|
  {
    if actions != [] {
      JobsStay(Do(s, actions[0]), actions[1..], end);
    }
  }

  lemma ReadThenCheck(
      s: System, t: string, read: Input, later: seq<Action>, end: System, input: Input)
    requires Inv(s) && t in s.workers && t in s.db.deliveries && s.workers[t].phase.CheckState?
    requires s.stored && !read.storeDown && s.workers[t].env.jobId in s.batch.receipts
    requires IsRun(Do(s, Work(t, read)), later, end) && Leaves(later, t) && t in end.workers
    requires end.stored && !input.storeDown
    ensures t in end.db.deliveries && end.workers[t].phase.CheckReceipt?
    ensures var e := PointEffect(end.batch, end.stored, end.workers[t], end.db.deliveries[t], input);
            && e.phase.Returned?
            && (R.Refuses(e.phase.outcome) <==>
                !ShapeOk(s.batch.state, s.batch.receipts[s.workers[t].env.jobId]))
  {
    var id, s1 := s.workers[t].env.jobId, Do(s, Work(t, read));
    WorkerFacts(s, t);
    ReadMoves(s, t, read);
    StepKeepsInv(s, Work(t, read));
    R.StepKept(s, Work(t, read));
    WorkerWaits(s1, later, end, t);
    JobsStay(s, [Work(t, read)] + later, end) by {
      assert ([Work(t, read)] + later)[1..] == later;
    }
    WorkerFacts(end, t);
    SameIncarnation(s.batch, end.batch, s.jobs, id);
    CheckRefusesIff(end.batch, end.jobs, end.workers[t], end.db.deliveries[t], input);
  }

  /**
   Exactly when a recovered delivery is refused although the batch can be read. A delivery that reads the batch after
   its member has a receipt, and then checks that receipt, is refused if and only if its receipt owns the completion of
   the batch and the run up to the read cancelled the batch after it had completed cleanly.
   */
  lemma RefusedIffCancelledLate(
      start: System, record: BatchRecord, now: int, before: seq<Action>, s: System, t: string, read: Input,
      later: seq<Action>, end: System, input: Input)
    requires Initial(start, record, now) && IsRun(start, before, s)
    requires t in s.workers && t in s.db.deliveries && s.workers[t].phase.CheckState? && s.stored && !read.storeDown
    requires s.workers[t].env.jobId in s.batch.receipts
    requires IsRun(Do(s, Work(t, read)), later, end) && Leaves(later, t) && t in end.workers
    requires end.stored && !input.storeDown
    ensures t in end.db.deliveries && end.workers[t].phase.CheckReceipt?
    ensures var e := PointEffect(end.batch, end.stored, end.workers[t], end.db.deliveries[t], input);
            && e.phase.Returned?
            && (R.Refuses(e.phase.outcome) <==>
                s.batch.receipts[s.workers[t].env.jobId].aggregateCompleted && RunCancelsLate(start, before))
  {
    InitialInv(start, record, now);
    RunKeepsInv(start, before, s);
    FitsUnlessCancelledLate(start, before, s, s.workers[t].env.jobId);
    ReadThenCheck(s, t, read, later, end, input);
  }
}
