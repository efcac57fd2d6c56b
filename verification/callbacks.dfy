/**
 Terminal workflow callbacks: guarded by workflow state, claimed once in the store, and run at most once per claim.
 */
module Callbacks {
  import opened WorkflowTypes
  import B = BatchStore
  import C = ChainStore
  import opened MemoryStores

  datatype CallbackKind = ChainCatch | ChainFinally | BatchThen | BatchCatch | BatchFinally

  function Prefix(kind: CallbackKind): string {
    match kind
    case ChainCatch => "chain_catch:"
    case ChainFinally => "chain_finally:"
    case BatchThen => "batch_then:"
    case BatchCatch => "batch_catch:"
    case BatchFinally => "batch_finally:"
  }

  function CallbackKey(kind: CallbackKind, id: string): string {
    Prefix(kind) + id
  }

  /** Distinct callbacks never share an idempotency key, whatever their workflow identifiers contain. */
  lemma CallbackKeysDistinct(k1: CallbackKind, i1: string, k2: CallbackKind, i2: string)
    ensures CallbackKey(k1, i1) == CallbackKey(k2, i2) <==> k1 == k2 && i1 == i2
  {
    var a, b := CallbackKey(k1, i1), CallbackKey(k2, i2);
    if a == b {
      assert a[0] == Prefix(k1)[0] && b[0] == Prefix(k2)[0];
      assert a[6] == Prefix(k1)[6] && b[6] == Prefix(k2)[6];
      assert k1 == k2;
      assert i1 == a[|Prefix(k1)|..] && i2 == b[|Prefix(k2)|..];
    }
  }

  predicate ChainReady(kind: CallbackKind, st: ChainState) {
    match kind
    case ChainCatch => st.failed && !st.completed
    case ChainFinally => st.failed || st.completed
    case _ => false
  }

  predicate BatchReady(kind: CallbackKind, st: BatchState) {
    match kind
    case BatchThen => st.completed && !st.cancelled
    case BatchCatch => st.failed > 0 || st.cancelled
    case BatchFinally => st.completed
    case _ => false
  }

  /** The stored state a callback is invoked with. */
  datatype Workflow = OfChain(chain: ChainState) | OfBatch(batch: BatchState)

  function IdOf(w: Workflow): string {
    match w
    case OfChain(st) => st.chainId
    case OfBatch(st) => st.batchId
  }

  predicate Ready(kind: CallbackKind, w: Workflow) {
    match w
    case OfChain(st) => ChainReady(kind, st)
    case OfBatch(st) => BatchReady(kind, st)
  }

  datatype Invocation = NotReady | AlreadyInvoked | Unavailable | Ran

  function Invoke(marks: map<string, int>, kind: CallbackKind, w: Workflow, registered: bool, now: int)
    : (map<string, int>, Invocation)
  {
    var key := CallbackKey(kind, IdOf(w));
    if !Ready(kind, w) then (marks, NotReady)
    else if key in marks then (marks, AlreadyInvoked)
    else (marks[key := now], if registered then Ran else Unavailable)
  }

  /** The state is checked first, and the claim is persisted before application code can run. */
  method InvokeCallback(
      store: MemoryStore, kind: CallbackKind, w: Workflow, registered: bool, now: int) returns (outcome: Invocation)
    modifies store`callbacks
    ensures (store.callbacks, outcome) == Invoke(old(store.callbacks), kind, w, registered, now)
  {
    if !Ready(kind, w) {
      return NotReady;
    }
    var marked := store.MarkCallbackInvoked(CallbackKey(kind, IdOf(w)), now);
    if !marked {
      return AlreadyInvoked;
    }
    return if registered then Ran else Unavailable;
  }

  // ---------- At most once between prunes ----------

  datatype Event = Attempt(kind: CallbackKind, workflow: Workflow, registered: bool, now: int) | PruneMarks(before: int)

  function Apply(marks: map<string, int>, e: Event): map<string, int> {
    match e
    case Attempt(kind, w, registered, now) => Invoke(marks, kind, w, registered, now).0
    case PruneMarks(before) => map k | k in marks && marks[k] >= before :: marks[k]
  }

  /** The event is an attempt to run this callback of this workflow. */
  predicate Attempts(e: Event, kind: CallbackKind, id: string) {
    e.Attempt? && e.kind == kind && IdOf(e.workflow) == id
  }

  /** How often one callback of one workflow runs in a sequence of events. */
  function Runs(marks: map<string, int>, kind: CallbackKind, id: string, events: seq<Event>): nat
    decreases |events|
  {
    if events == [] then 0
    else
      (if Attempts(events[0], kind, id)
          && Invoke(marks, kind, events[0].workflow, events[0].registered, events[0].now).1 == Ran then 1 else 0)
      + Runs(Apply(marks, events[0]), kind, id, events[1..])
  }

  /** No prune in the sequence reaches a claim made at or after the given time. */
  predicate Retains(events: seq<Event>, since: int) {
    forall i :: 0 <= i < |events| && events[i].PruneMarks? ==> events[i].before <= since
  }

  lemma {:induction false} ClaimedNeverRuns(
      marks: map<string, int>, kind: CallbackKind, id: string, events: seq<Event>, since: int)
    requires CallbackKey(kind, id) in marks && marks[CallbackKey(kind, id)] >= since && Retains(events, since)
    ensures Runs(marks, kind, id, events) == 0
    decreases |events|
  {
    if events != [] {
      ClaimedNeverRuns(Apply(marks, events[0]), kind, id, events[1..], since);
    }
  }

  /**
   While claims are retained, a callback of a workflow runs at most once, however often, from wherever and with whatever
   state it is delivered, and not at all if it is never ready.
   */
  lemma {:induction false} RunsAtMostOnce(
      marks: map<string, int>, kind: CallbackKind, id: string, events: seq<Event>, since: int)
    requires Retains(events, since)
    requires forall i :: 0 <= i < |events| && events[i].Attempt? ==> events[i].now >= since
    ensures Runs(marks, kind, id, events) <= 1
    ensures Runs(marks, kind, id, events) == 1 ==>
              exists i :: 0 <= i < |events| && Attempts(events[i], kind, id) && Ready(kind, events[i].workflow)
    decreases |events|
  {
    if events != [] {
      var next := Apply(marks, events[0]);
      if Attempts(events[0], kind, id) && CallbackKey(kind, id) !in marks && CallbackKey(kind, id) in next {
        ClaimedNeverRuns(next, kind, id, events[1..], since);
      } else {
        RunsAtMostOnce(next, kind, id, events[1..], since);
        assert forall i :: 0 <= i < |events| - 1 ==> events[1..][i] == events[i + 1];
      }
    }
  }

  // ---------- Catch and completion exclude each other ----------

  lemma {:induction false} FailedStaysFailed(audit: C.Audit, calls: seq<C.Call>)
    requires C.AuditOk(audit) && audit.state.failed
    ensures C.PerformAll(audit, calls).state.failed && !C.PerformAll(audit, calls).state.completed
    decreases |calls|
  {
    if calls != [] {
      C.PerformKeepsAudit(audit, calls[0]);
      FailedStaysFailed(C.Perform(audit, calls[0]), calls[1..]);
    }
  }

  lemma {:induction false} CompletedStaysCompleted(audit: C.Audit, calls: seq<C.Call>)
    requires C.AuditOk(audit) && audit.state.completed
    ensures C.PerformAll(audit, calls).state.completed && !C.PerformAll(audit, calls).state.failed
    decreases |calls|
  {
    if calls != [] {
      C.PerformKeepsAudit(audit, calls[0]);
      CompletedStaysCompleted(C.Perform(audit, calls[0]), calls[1..]);
    }
  }

  /**
   A chain whose Catch was ready at any moment never completes, and a completed chain never becomes ready for Catch.
   */
  lemma CatchExcludesCompletion(record: ChainRecord, created: int, before: seq<C.Call>, later: seq<C.Call>)
    requires record.chainId != "" && C.NodesOk(record.nodes)
    ensures var mid := C.PerformAll(C.Audit(C.NewChain(record, created), [], []), before);
            var end := C.PerformAll(mid, later);
            && (ChainReady(ChainCatch, mid.state) ==> !end.state.completed && ChainReady(ChainCatch, end.state))
            && (mid.state.completed ==> !ChainReady(ChainCatch, end.state))
  {
    var start := C.Audit(C.NewChain(record, created), [], []);
    C.PerformAllKeepsAudit(start, before);
    var mid := C.PerformAll(start, before);
    if mid.state.failed {
      FailedStaysFailed(mid, later);
    } else if mid.state.completed {
      CompletedStaysCompleted(mid, later);
    }
  }

  /**
   After any calls on a created batch, Then is ready only when every member settled and, unless failures are allowed,
   none failed; Finally is ready exactly when nothing is pending or the batch was cancelled.
   */
  lemma ThenMeansEverythingSettled(record: BatchRecord, created: int, calls: seq<B.Call>)
    requires B.JobsOk(record.jobs)
    ensures var b := B.PerformAll(B.NewBatch(record, created), calls);
            && (BatchReady(BatchThen, b.state) ==>
               B.Done(b) == b.jobs.Keys && (b.state.allowFailed || B.Failures(b) == {}))
            && (BatchReady(BatchFinally, b.state) <==> b.state.pending == 0 || b.state.cancelled)
  {
    B.NewBatchBalanced(record, created);
    B.CountersConserved(B.NewBatch(record, created), calls);
    B.DoneBound(B.PerformAll(B.NewBatch(record, created), calls));
  }
}
