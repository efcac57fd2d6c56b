/**
 The transitions of one stored batch: settlement of a member, start markers and cancellation, with the receipts they
 write. Every order and duplication of calls conserves the counters, and without cancellation the order does not matter.
 */
module BatchStore {
  import opened Common
  import opened WorkflowTypes
  import opened ChainStore

  datatype MemberStatus = MemberStatus(started: bool, done: bool, failed: bool)

  /** A batch with the status of its members and the receipts recorded for them. */
  datatype Batch = Batch(state: BatchState, jobs: map<string, MemberStatus>, receipts: map<string, Receipt>)

  datatype SettleResult = SettleResult(state: BatchState, owned: bool, claimedNow: bool, receipt: Option<Receipt>)

  // ---------- Creation ----------

  predicate JobsOk(jobs: seq<BatchJob>) {
    && |jobs| > 0 && (forall i :: 0 <= i < |jobs| ==> jobs[i].jobId != "")
    && forall i, j :: 0 <= i < j < |jobs| ==> jobs[i].jobId != jobs[j].jobId
  }

  function Members(jobs: seq<BatchJob>): set<string> {
    set i | 0 <= i < |jobs| :: jobs[i].jobId
  }

  /** The validation loop accepts exactly the records whose members are present, named and distinct. */
  method ValidateBatchRecord(record: BatchRecord) returns (ok: bool)
    ensures ok <==> record.batchId != "" && JobsOk(record.jobs)
  {
    if record.batchId == "" || |record.jobs| == 0 {
      return false;
    }
    var seen: set<string> := {};
    for i := 0 to |record.jobs|
      invariant seen == Members(record.jobs[..i])
      invariant i > 0 ==> JobsOk(record.jobs[..i])
    {
      var id := record.jobs[i].jobId;
      assert record.jobs[..i + 1] == record.jobs[..i] + [record.jobs[i]];
      if id == "" {
        return false;
      }
      if id in seen {
        return false;
      }
      seen := seen + {id};
    }
    assert record.jobs[..|record.jobs|] == record.jobs;
    return true;
  }

  function NewBatch(record: BatchRecord, now: int): Batch {
    var n := |record.jobs|;
    Batch(BatchState(record.batchId, record.dispatchId, record.name, record.queue, record.allowFailed, n, n, 0, 0,
                     false, false, record.createdAt, now),
          map id | id in Members(record.jobs) :: MemberStatus(false, false, false),
          map[])
  }

  /** The creation loop enters every member of the record with a blank status. */
  method BlankMembers(jobs: seq<BatchJob>) returns (status: map<string, MemberStatus>)
    ensures status == map id | id in Members(jobs) :: MemberStatus(false, false, false)
  {
    status := map[];
    for i := 0 to |jobs|
      invariant status == map id | id in Members(jobs[..i]) :: MemberStatus(false, false, false)
    {
      assert jobs[..i + 1] == jobs[..i] + [jobs[i]];
      status := status[jobs[i].jobId := MemberStatus(false, false, false)];
    }
    assert jobs[..|jobs|] == jobs;
  }

  // ---------- Operations ----------

  function Lookup(receipts: map<string, Receipt>, id: string): Option<Receipt> {
    if id in receipts then Some(receipts[id]) else None
  }

  /** The counters and flags after the first settlement of one more member. */
  function Counted(st: BatchState, failure: bool, now: int): BatchState {
    var failed := if failure then st.failed + 1 else st.failed;
    var cancels := failure && !st.allowFailed;
    st.(pending := st.pending - 1, processed := st.processed + 1, failed := failed,
        cancelled := st.cancelled || cancels,
        completed := st.completed || cancels || st.pending - 1 <= 0,
        updatedAt := now)
  }

  /** First-writer settlement of one member. */
  function SettleBatch(
      b: Batch, id: string, outcome: MemberOutcome, claim: Claim, now: int): (Batch, Result<SettleResult>) {
    var failure, conflict := outcome == MemberFailed, DispatchConflict(b.state.dispatchId, claim.dispatchId);
    if outcome.MemberOther? then (b, Err(UnsupportedOutcome))
    else if id !in b.jobs then (b, Err(NotFound))
    else if b.jobs[id].done then
      if conflict then (b, Ok(SettleResult(b.state, false, false, None)))
      else
        var st := b.state.(updatedAt := now);
        (b.(state := st), Ok(SettleResult(st, b.jobs[id].failed == failure, false, Lookup(b.receipts, id))))
    else if conflict then (b, Err(DispatchMismatch))
    else
      var st := Counted(b.state, failure, now);
      var completes := !b.state.completed && st.completed;
      var receipt := MakeReceipt(BatchKind, st.batchId, st.dispatchId, st.createdAt, id, outcome, claim, completes,
                                 completes && st.cancelled);
      (Batch(st, b.jobs[id := b.jobs[id].(done := true, failed := failure)],
             if receipt.Some? then b.receipts[id := receipt.value] else b.receipts),
       Ok(SettleResult(st, true, true, receipt)))
  }

  function StartMember(b: Batch, id: string, now: int): Batch {
    if id !in b.jobs then b
    else b.(jobs := b.jobs[id := b.jobs[id].(started := true)], state := b.state.(updatedAt := now))
  }

  function CancelBatch(b: Batch, now: int): Batch {
    b.(state := b.state.(cancelled := true, completed := true, updatedAt := now))
  }

  datatype Call =
    | Begin(id: string, now: int)
    | Settle(id: string, outcome: MemberOutcome, claim: Claim, now: int)
    | Cancel(now: int)

  function Perform(b: Batch, call: Call): Batch {
    match call
    case Begin(id, now) => StartMember(b, id, now)
    case Settle(id, outcome, claim, now) => SettleBatch(b, id, outcome, claim, now).0
    case Cancel(now) => CancelBatch(b, now)
  }

  function PerformAll(b: Batch, calls: seq<Call>): Batch
    decreases |calls|
  {
    if calls == [] then b else PerformAll(Perform(b, calls[0]), calls[1..])
  }

  // ---------- Conservation ----------

  function Done(b: Batch): set<string> {
    set id | id in b.jobs && b.jobs[id].done
  }

  function Failures(b: Batch): set<string> {
    set id | id in b.jobs && b.jobs[id].done && b.jobs[id].failed
  }

  predicate Balanced(b: Batch) {
    var st := b.state;
    && st.total == |b.jobs| > 0
    && st.processed == |Done(b)| && st.failed == |Failures(b)| && st.pending == st.total - st.processed
    && (st.completed <==> st.pending == 0 || st.cancelled)
    && (st.failed > 0 && !st.allowFailed ==> st.cancelled)
  }

  lemma MembersCount(jobs: seq<BatchJob>)
    requires forall i, j :: 0 <= i < j < |jobs| ==> jobs[i].jobId != jobs[j].jobId
    ensures |Members(jobs)| == |jobs|
  {
    if jobs != [] {
      var n := |jobs| - 1;
      MembersCount(jobs[..n]);
      assert Members(jobs) == Members(jobs[..n]) + {jobs[n].jobId};
    }
  }

  lemma NewBatchBalanced(record: BatchRecord, now: int)
    requires JobsOk(record.jobs)
    ensures Balanced(NewBatch(record, now))
  {
    var b := NewBatch(record, now);
    MembersCount(record.jobs);
    assert b.jobs.Keys == Members(record.jobs) && Done(b) == {} && Failures(b) == {};
  }

  /** The first settlement of a member adds it to the settled members, and to the failed ones when it failed. */
  lemma SettleCounts(b: Batch, id: string, outcome: MemberOutcome, claim: Claim, now: int)
    ensures var after, r := SettleBatch(b, id, outcome, claim, now).0, SettleBatch(b, id, outcome, claim, now).1;
            if r.Ok? && r.value.claimedNow
            then && id in b.jobs && id !in Done(b) && after.jobs.Keys == b.jobs.Keys
                 && Done(after) == Done(b) + {id}
                 && Failures(after) == if outcome == MemberFailed then Failures(b) + {id} else Failures(b)
            else after == b.(state := after.state) && after.state == b.state.(updatedAt := after.state.updatedAt)
  {
  }

  lemma DoneBound(b: Batch)
    ensures |Done(b)| <= |b.jobs| && (|Done(b)| == |b.jobs| <==> Done(b) == b.jobs.Keys)
  {
    assert Done(b) <= b.jobs.Keys;
    SubsetSize(Done(b), b.jobs.Keys);
  }

  lemma SubsetSize(a: set<string>, b: set<string>)
    requires a <= b
    ensures |a| <= |b| && (|a| == |b| <==> a == b)
  {
    assert b == a + (b - a);
  }

  lemma SettleKeepsBalance(b: Batch, id: string, outcome: MemberOutcome, claim: Claim, now: int)
    requires Balanced(b)
    ensures Balanced(SettleBatch(b, id, outcome, claim, now).0)
  {
    var after := SettleBatch(b, id, outcome, claim, now).0;
    SettleCounts(b, id, outcome, claim, now);
    DoneBound(b);
    DoneBound(after);
    assert |after.jobs| == |after.jobs.Keys| && |b.jobs| == |b.jobs.Keys|;
  }

  lemma PerformKeepsBalance(b: Batch, call: Call)
    requires Balanced(b)
    ensures Balanced(Perform(b, call))
  {
    match call
    case Settle(id, outcome, claim, now) => SettleKeepsBalance(b, id, outcome, claim, now);
    case Begin(id, now) =>
      var after := StartMember(b, id, now);
      assert Done(after) == Done(b) && Failures(after) == Failures(b);
      assert after.jobs.Keys == b.jobs.Keys && |after.jobs| == |after.jobs.Keys| && |b.jobs| == |b.jobs.Keys|;
    case Cancel(now) =>
      assert Done(CancelBatch(b, now)) == Done(b) && Failures(CancelBatch(b, now)) == Failures(b);
  }

  /** Conservation over every sequence of calls on a created batch. */
  lemma {:induction false} CountersConserved(b: Batch, calls: seq<Call>)
    requires Balanced(b)
    ensures Balanced(PerformAll(b, calls))
    decreases |calls|
  {
    if calls != [] {
      PerformKeepsBalance(b, calls[0]);
      CountersConserved(Perform(b, calls[0]), calls[1..]);
    }
  }

  // ---------- Confluence ----------

  /** A settlement that reports the member's own outcome for this batch, or a start marker. */
  predicate Consistent(b: Batch, fails: set<string>, call: Call) {
    match call
    case Begin(_, _) => true
    case Settle(id, outcome, claim, _) =>
      && outcome == (if id in fails then MemberFailed else MemberSucceeded)
      && !DispatchConflict(b.state.dispatchId, claim.dispatchId)
    case Cancel(_) => false
  }

  predicate AllConsistent(b: Batch, fails: set<string>, calls: seq<Call>) {
    forall i :: 0 <= i < |calls| ==> Consistent(b, fails, calls[i])
  }

  /** The members a sequence of calls delivers. */
  function Delivered(b: Batch, calls: seq<Call>): set<string> {
    set i | 0 <= i < |calls| && calls[i].Settle? && calls[i].id in b.jobs :: calls[i].id
  }

  /** What a batch is apart from its clock, as a function of its settled and failed members. */
  predicate Settled(b: Batch, initial: Batch, done: set<string>, fails: set<string>) {
    && b.jobs.Keys == initial.jobs.Keys && Done(b) == done && Failures(b) == done * fails
    && b.state == initial.state.(pending := b.state.pending, processed := b.state.processed, failed := b.state.failed,
                                 cancelled := b.state.cancelled, completed := b.state.completed,
                                 updatedAt := b.state.updatedAt)
    && (b.state.cancelled <==> !initial.state.allowFailed && done * fails != {})
  }

  lemma PerformSettles(b: Batch, initial: Batch, done: set<string>, fails: set<string>, call: Call)
    requires Settled(b, initial, done, fails) && Consistent(initial, fails, call)
    ensures var next := if call.Settle? && call.id in initial.jobs then done + {call.id} else done;
            Settled(Perform(b, call), initial, next, fails)
  {
    match call
    case Begin(id, now) =>
      assert Done(Perform(b, call)) == Done(b) && Failures(Perform(b, call)) == Failures(b);
    case Settle(id, outcome, claim, now) =>
      SettleCounts(b, id, outcome, claim, now);
      assert (done + {id}) * fails == if id in fails then done * fails + {id} else done * fails;
  }

  lemma {:induction false} PerformAllSettles(
      b: Batch, initial: Batch, done: set<string>, fails: set<string>, calls: seq<Call>)
    requires Settled(b, initial, done, fails) && AllConsistent(initial, fails, calls)
    ensures Settled(PerformAll(b, calls), initial, done + Delivered(initial, calls), fails)
    decreases |calls|
  {
    if calls == [] {
      assert done + Delivered(initial, calls) == done;
    } else {
      var next := if calls[0].Settle? && calls[0].id in initial.jobs then done + {calls[0].id} else done;
      PerformSettles(b, initial, done, fails, calls[0]);
      PerformAllSettles(Perform(b, calls[0]), initial, next, fails, calls[1..]);
      assert next + Delivered(initial, calls[1..]) == done + Delivered(initial, calls) by {
        DeliveredSplit(initial, calls);
      }
    }
  }

  lemma DeliveredSplit(b: Batch, calls: seq<Call>)
    requires calls != []
    ensures Delivered(b, calls) ==
            (if calls[0].Settle? && calls[0].id in b.jobs then {calls[0].id} else {}) + Delivered(b, calls[1..])
  {
  }

  /**
   Confluence: for one outcome per member and no cancellation, any two sequences of deliveries that reach the same
   members, in any order and with any duplication, end in the same counters, flags and member outcomes.
   */
  lemma DeliveryOrderIsIrrelevant(record: BatchRecord, now: int, fails: set<string>, a: seq<Call>, b: seq<Call>)
    requires JobsOk(record.jobs)
    requires var initial := NewBatch(record, now);
             && AllConsistent(initial, fails, a) && AllConsistent(initial, fails, b)
             && Delivered(initial, a) == Delivered(initial, b)
    ensures var x, y := PerformAll(NewBatch(record, now), a), PerformAll(NewBatch(record, now), b);
            && x.state.(updatedAt := 0) == y.state.(updatedAt := 0)
            && Done(x) == Done(y) && Failures(x) == Failures(y)
  {
    var initial := NewBatch(record, now);
    NewBatchBalanced(record, now);
    assert Done(initial) == {} && Failures(initial) == {} * fails;
    PerformAllSettles(initial, initial, {}, fails, a);
    PerformAllSettles(initial, initial, {}, fails, b);
    CountersConserved(initial, a);
    CountersConserved(initial, b);
    SettledDetermines(PerformAll(initial, a), PerformAll(initial, b), initial, {} + Delivered(initial, a), fails);
  }

  /** The settled members determine the counters and flags. */
  lemma SettledDetermines(x: Batch, y: Batch, initial: Batch, done: set<string>, fails: set<string>)
    requires Settled(x, initial, done, fails) && Settled(y, initial, done, fails) && Balanced(x) && Balanced(y)
    ensures x.state.(updatedAt := 0) == y.state.(updatedAt := 0) && Done(x) == Done(y) && Failures(x) == Failures(y)
  {
  }

  // ---------- First writers and their receipts ----------

  predicate CompleteClaims(calls: seq<Call>) {
    forall i :: 0 <= i < |calls| && calls[i].Settle? ==> calls[i].claim.Valid()
  }

  /** Neither the outcome of a settled member nor its receipt ever changes. */
  predicate Preserves(a: Batch, b: Batch) {
    && b.jobs.Keys == a.jobs.Keys
    && (forall id :: id in a.jobs && a.jobs[id].done ==> b.jobs[id].done && b.jobs[id].failed == a.jobs[id].failed)
    && (forall id :: id in a.receipts && id in a.jobs && a.jobs[id].done ==>
          id in b.receipts && b.receipts[id] == a.receipts[id])
  }

  lemma PerformPreserves(b: Batch, call: Call)
    ensures Preserves(b, Perform(b, call))
  {
  }

  lemma PreservesTransitive(a: Batch, b: Batch, c: Batch)
    requires Preserves(a, b) && Preserves(b, c)
    ensures Preserves(a, c)
  {
  }

  lemma {:induction false} FirstWriterIsFinal(b: Batch, calls: seq<Call>)
    ensures Preserves(b, PerformAll(b, calls))
    decreases |calls|
  {
    if calls != [] {
      PerformPreserves(b, calls[0]);
      FirstWriterIsFinal(Perform(b, calls[0]), calls[1..]);
      PreservesTransitive(b, Perform(b, calls[0]), PerformAll(b, calls));
    }
  }

  /** A replay owns its outcome exactly when it agrees with the first writer. */
  lemma ReplayOwnsIffAgrees(b: Batch, id: string, outcome: MemberOutcome, claim: Claim, now: int)
    requires id in b.jobs && b.jobs[id].done && !outcome.MemberOther?
    requires !DispatchConflict(b.state.dispatchId, claim.dispatchId)
    ensures var r := SettleBatch(b, id, outcome, claim, now).1;
            r.Ok? && !r.value.claimedNow && (r.value.owned <==> b.jobs[id].failed == (outcome == MemberFailed))
  {
  }

  // ---------- The terminal owner ----------

  /** The member status recorded by a receipt, and when the receipt may own completion. */
  predicate ReceiptTrue(b: Batch, id: string, r: Receipt) {
    && id in b.jobs && b.jobs[id].done
    && r.kind == BatchKind && r.workflowId == b.state.batchId && r.memberId == id
    && r.workflowDispatchId == b.state.dispatchId && r.workflowCreatedAt == b.state.createdAt
    && r.Supported() && r.owner.Valid()
    && r.outcome == (if b.jobs[id].failed then MemberFailed else MemberSucceeded)
    && (r.aggregateCancelled ==> r.aggregateCompleted && r.outcome == MemberFailed && b.state.cancelled)
    && (r.aggregateCompleted ==> b.state.completed)
  }

  function Terminals(b: Batch): set<string> {
    set id | id in b.receipts && b.receipts[id].aggregateCompleted
  }

  /** With complete claims every settled member has its receipt, and at most one receipt owns completion. */
  predicate Accounted(b: Batch) {
    && b.receipts.Keys == Done(b) && (b.state.cancelled ==> b.state.completed)
    && (forall id :: id in b.receipts ==> ReceiptTrue(b, id, b.receipts[id]))
    && (forall i, j :: i in Terminals(b) && j in Terminals(b) ==> i == j)
    && (b.state.completed && !b.state.cancelled ==> Terminals(b) != {})
  }

  lemma SettleKeepsReceipts(b: Batch, id: string, outcome: MemberOutcome, claim: Claim, now: int)
    requires Accounted(b) && claim.Valid()
    ensures var after := SettleBatch(b, id, outcome, claim, now).0;
            && after.receipts.Keys == Done(after) && (after.state.cancelled ==> after.state.completed)
            && forall i :: i in after.receipts ==> ReceiptTrue(after, i, after.receipts[i])
  {
    SettleCounts(b, id, outcome, claim, now);
  }

  /** A settlement adds its own member to the completion owners exactly when it completes the batch. */
  lemma SettleMovesTerminals(b: Batch, id: string, outcome: MemberOutcome, claim: Claim, now: int)
    requires b.receipts.Keys == Done(b) && claim.Valid()
    ensures var after := SettleBatch(b, id, outcome, claim, now).0;
            Terminals(after)
            == if !b.state.completed && after.state.completed then Terminals(b) + {id} else Terminals(b)
  {
  }

  lemma SettleKeepsAccount(b: Batch, id: string, outcome: MemberOutcome, claim: Claim, now: int)
    requires Accounted(b) && claim.Valid()
    ensures Accounted(SettleBatch(b, id, outcome, claim, now).0)
  {
    SettleKeepsReceipts(b, id, outcome, claim, now);
    SettleMovesTerminals(b, id, outcome, claim, now);
    assert !b.state.completed ==> Terminals(b) == {};
  }

  lemma PerformKeepsAccount(b: Batch, call: Call)
    requires Accounted(b) && (call.Settle? ==> call.claim.Valid())
    ensures Accounted(Perform(b, call))
  {
    match call
    case Settle(id, outcome, claim, now) => SettleKeepsAccount(b, id, outcome, claim, now);
    case Begin(id, now) =>
      assert Done(Perform(b, call)) == Done(b) && Terminals(Perform(b, call)) == Terminals(b);
    case Cancel(now) =>
      assert Done(Perform(b, call)) == Done(b) && Terminals(Perform(b, call)) == Terminals(b);
  }

  lemma {:induction false} ReceiptsStayAccounted(b: Batch, calls: seq<Call>)
    requires Accounted(b) && CompleteClaims(calls)
    ensures Accounted(PerformAll(b, calls))
    decreases |calls|
  {
    if calls != [] {
      PerformKeepsAccount(b, calls[0]);
      ReceiptsStayAccounted(Perform(b, calls[0]), calls[1..]);
    }
  }

  // ---------- Cancellation and the recovery checks ----------

  /** A cancellation of a batch that already completed cleanly. */
  predicate LateCancel(b: Batch, call: Call) {
    call.Cancel? && b.state.completed && !b.state.cancelled
  }

  predicate CancelsLate(b: Batch, calls: seq<Call>)
    decreases |calls|
  {
    calls != [] && (LateCancel(b, calls[0]) || CancelsLate(Perform(b, calls[0]), calls[1..]))
  }

  /** The checks a recovered delivery makes of a receipt's terminal ownership against the aggregate. */
  predicate ShapeOk(st: BatchState, r: Receipt) {
    && (r.aggregateCancelled ==> r.aggregateCompleted && r.outcome == MemberFailed)
    && (r.aggregateCompleted ==> st.completed && r.aggregateCancelled == st.cancelled)
  }

  predicate ShapesOk(b: Batch) {
    forall id :: id in b.receipts ==> ShapeOk(b.state, b.receipts[id])
  }

  lemma SettleKeepsShapes(b: Batch, id: string, outcome: MemberOutcome, claim: Claim, now: int)
    requires Balanced(b) && Accounted(b) && ShapesOk(b) && claim.Valid()
    ensures ShapesOk(SettleBatch(b, id, outcome, claim, now).0)
  {
    var after := SettleBatch(b, id, outcome, claim, now).0;
    SettleCounts(b, id, outcome, claim, now);
    DoneBound(b);
    forall i | i in after.receipts ensures ShapeOk(after.state, after.receipts[i]) {
      if i in b.receipts && i != id {
        assert ShapeOk(b.state, b.receipts[i]) && after.receipts[i] == b.receipts[i];
      }
    }
  }

  lemma PerformKeepsShapes(b: Batch, call: Call)
    requires Balanced(b) && Accounted(b) && ShapesOk(b) && (call.Settle? ==> call.claim.Valid())
    ensures ShapesOk(Perform(b, call)) <==> !LateCancel(b, call)
  {
    match call
    case Settle(id, outcome, claim, now) => SettleKeepsShapes(b, id, outcome, claim, now);
    case Begin(id, now) => {}
    case Cancel(now) =>
      if LateCancel(b, call) {
        var t :| t in Terminals(b);
        assert !ShapeOk(Perform(b, call).state, Perform(b, call).receipts[t]);
      }
  }

  /** The disagreement of a late cancellation is permanent. */
  predicate Disagrees(b: Batch, t: string) {
    && t in b.receipts && t in b.jobs && b.jobs[t].done
    && b.receipts[t].aggregateCompleted && !b.receipts[t].aggregateCancelled && b.state.cancelled
  }

  lemma {:induction false} DisagreementPersists(b: Batch, calls: seq<Call>, t: string)
    requires Disagrees(b, t)
    ensures Disagrees(PerformAll(b, calls), t)
    decreases |calls|
  {
    if calls != [] {
      DisagreementPersists(Perform(b, calls[0]), calls[1..], t);
    }
  }

  /**
   Over every sequence of calls with complete claims, every receipt passes the recovery checks if and only if no call
   cancelled a batch that had already completed without cancellation.
   */
  lemma {:induction false} ShapesAgreeIffNoLateCancel(b: Batch, calls: seq<Call>)
    requires Balanced(b) && Accounted(b) && ShapesOk(b) && CompleteClaims(calls)
    ensures ShapesOk(PerformAll(b, calls)) <==> !CancelsLate(b, calls)
    decreases |calls|
  {
    if calls != [] {
      var next := Perform(b, calls[0]);
      PerformKeepsBalance(b, calls[0]);
      PerformKeepsAccount(b, calls[0]);
      PerformKeepsShapes(b, calls[0]);
      if LateCancel(b, calls[0]) {
        var t :| t in Terminals(b);
        assert ReceiptTrue(b, t, b.receipts[t]);
        DisagreementPersists(next, calls[1..], t);
      } else {
        ShapesAgreeIffNoLateCancel(next, calls[1..]);
      }
    }
  }

  /** The aggregate checks a recovered delivery makes before it trusts a batch. */
  predicate RecoverableState(st: BatchState) {
    && st.total > 0 && st.pending >= 0 && st.processed >= 0 && st.failed >= 0
    && st.pending + st.processed == st.total && st.failed <= st.processed
    && (!st.completed ==> st.pending != 0)
    && (st.completed && !st.cancelled ==> st.pending == 0)
  }

  lemma BalancedIsRecoverable(b: Batch)
    requires Balanced(b)
    ensures RecoverableState(b.state)
  {
    DoneBound(b);
    assert Failures(b) <= Done(b);
    SubsetSize(Failures(b), Done(b));
  }

  /** Whether a settlement may publish and call back for the whole batch. */
  predicate OwnsTerminal(r: SettleResult, outcome: MemberOutcome) {
    && r.state.completed
    && (r.receipt.Some? ==>
          && r.receipt.value.Supported() && r.receipt.value.outcome == outcome
          && r.receipt.value.aggregateCompleted && r.receipt.value.aggregateCancelled == r.state.cancelled)
  }

  /** The call that completed the batch was a cancellation rather than a settlement. */
  predicate CancelCompletes(b: Batch, calls: seq<Call>)
    decreases |calls|
  {
    !b.state.completed && calls != [] && (calls[0].Cancel? || CancelCompletes(Perform(b, calls[0]), calls[1..]))
  }

  lemma PerformMovesTerminals(b: Batch, call: Call)
    requires b.receipts.Keys == Done(b) && (call.Settle? ==> call.claim.Valid())
    ensures Terminals(Perform(b, call))
            == if call.Settle? && !b.state.completed && Perform(b, call).state.completed
               then Terminals(b) + {call.id} else Terminals(b)
    ensures b.state.completed ==> Perform(b, call).state.completed
  {
    if call.Settle? {
      SettleMovesTerminals(b, call.id, call.outcome, call.claim, call.now);
    }
  }

  /** A completed batch has a completion owner exactly when a settlement completed it. */
  lemma {:induction false} OwnerIffSettled(b: Batch, calls: seq<Call>)
    requires Accounted(b) && CompleteClaims(calls) && (b.state.completed ==> Terminals(b) != {})
    ensures var end := PerformAll(b, calls);
            && (Terminals(b) != {} ==> Terminals(end) != {})
            && (CancelCompletes(b, calls) ==> end.state.completed)
            && (end.state.completed ==> (Terminals(end) != {} <==> !CancelCompletes(b, calls)))
    decreases |calls|
  {
    if calls != [] {
      var next := Perform(b, calls[0]);
      PerformKeepsAccount(b, calls[0]);
      PerformMovesTerminals(b, calls[0]);
      if calls[0].Cancel? && !b.state.completed {
        assert Terminals(b) == {};
        Ownerless(next, calls[1..]);
      } else {
        OwnerIffSettled(next, calls[1..]);
      }
    }
  }

  lemma {:induction false} Ownerless(b: Batch, calls: seq<Call>)
    requires Accounted(b) && CompleteClaims(calls) && b.state.completed && Terminals(b) == {}
    ensures PerformAll(b, calls).state.completed && Terminals(PerformAll(b, calls)) == {}
    decreases |calls|
  {
    if calls != [] {
      PerformKeepsAccount(b, calls[0]);
      PerformMovesTerminals(b, calls[0]);
      Ownerless(Perform(b, calls[0]), calls[1..]);
    }
  }

  lemma {:induction false} LateCancelDisagrees(b: Batch, calls: seq<Call>) returns (t: string)
    requires Balanced(b) && Accounted(b) && ShapesOk(b) && CompleteClaims(calls) && CancelsLate(b, calls)
    ensures Disagrees(PerformAll(b, calls), t)
    decreases |calls|
  {
    var next := Perform(b, calls[0]);
    PerformKeepsBalance(b, calls[0]);
    PerformKeepsAccount(b, calls[0]);
    PerformKeepsShapes(b, calls[0]);
    if LateCancel(b, calls[0]) {
      t :| t in Terminals(b);
      assert ReceiptTrue(b, t, b.receipts[t]) && ShapeOk(b.state, b.receipts[t]);
      DisagreementPersists(next, calls[1..], t);
    } else {
      t := LateCancelDisagrees(next, calls[1..]);
    }
  }

  /** A settlement that owns its outcome is answered with the member's receipt. */
  lemma OwnedReceipt(b: Batch, id: string, outcome: MemberOutcome, claim: Claim, now: int)
    requires b.receipts.Keys == Done(b) && claim.Valid()
    ensures var after, r := SettleBatch(b, id, outcome, claim, now).0, SettleBatch(b, id, outcome, claim, now).1;
            r.Ok? && r.value.owned ==>
              id in after.receipts && r.value.receipt == Some(after.receipts[id]) && r.value.state == after.state
  {
  }

  /** The answer owns the terminal effects exactly when the member's receipt does and agrees with the aggregate. */
  lemma OwnsTerminalMeans(b: Batch, id: string, outcome: MemberOutcome, claim: Claim, now: int)
    requires Accounted(b) && claim.Valid()
    ensures var after, r := SettleBatch(b, id, outcome, claim, now).0, SettleBatch(b, id, outcome, claim, now).1;
            r.Ok? && r.value.owned ==>
              && id in after.receipts
              && (OwnsTerminal(r.value, outcome) <==>
                  after.receipts[id].aggregateCompleted
                  && after.receipts[id].aggregateCancelled == after.state.cancelled)
  {
    var after, r := SettleBatch(b, id, outcome, claim, now).0, SettleBatch(b, id, outcome, claim, now).1;
    SettleKeepsAccount(b, id, outcome, claim, now);
    OwnedReceipt(b, id, outcome, claim, now);
    if r.Ok? && r.value.owned {
      assert ReceiptTrue(after, id, after.receipts[id]);
      OwnedOutcome(b, id, outcome, claim, now);
    }
  }

  lemma OwnedOutcome(b: Batch, id: string, outcome: MemberOutcome, claim: Claim, now: int)
    ensures var after, r := SettleBatch(b, id, outcome, claim, now).0, SettleBatch(b, id, outcome, claim, now).1;
            r.Ok? && r.value.owned ==>
              && id in after.jobs && !outcome.MemberOther?
              && after.jobs[id].failed == (outcome == MemberFailed)
  {
  }

  /**
   Over every sequence of calls with complete claims, cancellations included: at most one receipt owns completion; a
   completed batch has an owner exactly when a settlement completed it; and a settlement that owns its member's outcome
   may publish and call back for the batch exactly when it is the completion owner's and no call cancelled the batch
   after it had completed cleanly. After such a late cancellation not even the owner's own replay may.
   */
  lemma SingleTerminalOwner(
      record: BatchRecord, created: int, calls: seq<Call>, id: string, outcome: MemberOutcome, claim: Claim, now: int)
    requires JobsOk(record.jobs) && CompleteClaims(calls) && claim.Valid()
    ensures var initial := NewBatch(record, created);
            var b := PerformAll(initial, calls);
            var after, r := SettleBatch(b, id, outcome, claim, now).0, SettleBatch(b, id, outcome, claim, now).1;
            && (forall i, j :: i in Terminals(b) && j in Terminals(b) ==> i == j)
            && (b.state.completed ==> (Terminals(b) != {} <==> !CancelCompletes(initial, calls)))
            && (!b.state.completed ==> Terminals(b) == {})
            && (r.Ok? && r.value.owned ==>
                  (OwnsTerminal(r.value, outcome) <==> Terminals(after) == {id} && !CancelsLate(initial, calls)))
  {
    var initial := NewBatch(record, created);
    NewBatchBalanced(record, created);
    assert Done(initial) == {} && Terminals(initial) == {} && Accounted(initial);
    CountersConserved(initial, calls);
    ReceiptsStayAccounted(initial, calls);
    ShapesAgreeIffNoLateCancel(initial, calls);
    OwnerIffSettled(initial, calls);
    var b := PerformAll(initial, calls);
    if CancelsLate(initial, calls) {
      var t := LateCancelDisagrees(initial, calls);
      LateCancelDisowns(b, t, id, outcome, claim, now);
    } else {
      OwnershipIsTerminal(b, id, outcome, claim, now);
    }
  }

  lemma LateCancelDisowns(b: Batch, t: string, id: string, outcome: MemberOutcome, claim: Claim, now: int)
    requires Accounted(b) && claim.Valid() && Disagrees(b, t)
    ensures var r := SettleBatch(b, id, outcome, claim, now).1;
            r.Ok? && r.value.owned ==> !OwnsTerminal(r.value, outcome)
  {
    var after, r := SettleBatch(b, id, outcome, claim, now).0, SettleBatch(b, id, outcome, claim, now).1;
    assert t in Terminals(b);
    SettleMovesTerminals(b, id, outcome, claim, now);
    OwnsTerminalMeans(b, id, outcome, claim, now);
    PerformPreserves(b, Settle(id, outcome, claim, now));
    assert ReceiptTrue(b, t, b.receipts[t]);
    if r.Ok? && r.value.owned && after.receipts[id].aggregateCompleted {
      assert id in Terminals(after);
    }
  }

  lemma OwnershipIsTerminal(b: Batch, id: string, outcome: MemberOutcome, claim: Claim, now: int)
    requires Balanced(b) && Accounted(b) && ShapesOk(b) && claim.Valid()
    ensures var after, r := SettleBatch(b, id, outcome, claim, now).0, SettleBatch(b, id, outcome, claim, now).1;
            r.Ok? && r.value.owned ==> (OwnsTerminal(r.value, outcome) <==> Terminals(after) == {id})
  {
    var after, r := SettleBatch(b, id, outcome, claim, now).0, SettleBatch(b, id, outcome, claim, now).1;
    SettleKeepsAccount(b, id, outcome, claim, now);
    SettleKeepsShapes(b, id, outcome, claim, now);
    OwnsTerminalMeans(b, id, outcome, claim, now);
    if r.Ok? && r.value.owned {
      assert ShapeOk(after.state, after.receipts[id]);
      assert after.receipts[id].aggregateCompleted <==> id in Terminals(after);
    }
  }

  // ---------- Healthy batches ----------

  /** Everything the calls above keep, sealed for proofs that only pass it on. */
  ghost predicate Healthy(b: Batch) {
    forall k :: Unseal(k) ==> Balanced(b) && Accounted(b)
  }

  lemma HealthyMember(b: Batch, id: string)
    requires Healthy(b)
    ensures id in b.receipts <==> id in b.jobs && b.jobs[id].done
    ensures id in b.receipts ==> ReceiptTrue(b, id, b.receipts[id])
  {
    assert Unseal(0);
  }

  lemma PerformKeepsHealth(b: Batch, call: Call)
    requires Healthy(b) && (call.Settle? ==> call.claim.Valid())
    ensures Healthy(Perform(b, call)) && Preserves(b, Perform(b, call))
  {
    assert Unseal(0);
    PerformKeepsBalance(b, call);
    PerformKeepsAccount(b, call);
    PerformPreserves(b, call);
  }

  lemma NewBatchHealthy(record: BatchRecord, now: int)
    requires JobsOk(record.jobs)
    ensures Healthy(NewBatch(record, now))
  {
    NewBatchBalanced(record, now);
    assert Done(NewBatch(record, now)) == {} && Terminals(NewBatch(record, now)) == {};
  }
}
