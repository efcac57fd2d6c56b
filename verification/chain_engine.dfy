/**
 Chains executed over SQL queue rows. A system state is the workflow store, the queue table and the workers that
 currently hold a claimed delivery; every action is one atomic step of one participant. Store calls, inserts and
 settlement statements may fail, inserts and settlements may be applied although they report an error, workers may
 vanish at any point, and a stale lease may be recovered while its worker is still running.
 */
module ChainEngine {
  import opened Common
  import opened Attempts
  import opened WorkflowTypes
  import opened Identity
  import opened ChainStore
  import opened Recovery
  import opened QueueFrames
  import Sql = SqlRows

  // ---------- Workers ----------

  /** What a recovery check does when it does not handle the delivery. */
  datatype Plan = RunHandler | Finish(outcome: Outcome) | TrySuccess(next: Plan)

  /** The point a worker has reached inside one delivery. */
  datatype Phase =
    | Entered
    | CheckFailure(plan: Plan)
    | FailureReceipt(seen: ChainState, plan: Plan)
    | CheckSuccess(plan: Plan)
    | SuccessReceipt(seen: ChainState, plan: Plan)
    | Execute
    | Failing(cause: Failure)
    | Advancing
    | Dispatching(node: ChainNode)
    | Returned(outcome: Outcome, tries: nat)

  datatype Worker = Worker(env: Envelope, facts: seq<Fact>, phase: Phase)

  /** An enqueue is accepted, accepted although it reports an error, or rejected. */
  datatype Reply = Accepted | Lost | Rejected

  /** Everything the environment decides about one worker step. */
  datatype Input = Input(
    now: int,
    storeDown: bool,
    outcome: Outcome,
    reply: Reply,
    jobId: string,
    applied: bool,
    acknowledged: bool)

  /** A chain between its creation and the acceptance of its first delivery. */
  datatype StartPhase = Creating | StartFailed

  datatype Publication = Publication(chainId: string, nodeId: string, fact: Fact, generation: string)

  /**
   `chains` and `receipts` are the store. `ledger` and `owners` are their history: the last state of every chain ever
   created and the first receipt of every node, which pruning does not forget.
   */
  datatype System = System(
    chains: map<string, ChainState>,
    receipts: map<ReceiptKey, Receipt>,
    db: Sql.Db<Envelope>,
    workers: map<string, Worker>,
    starting: map<string, StartPhase>,
    ledger: map<string, ChainState>,
    owners: map<ReceiptKey, Receipt>,
    published: set<Publication>)

  predicate Initial(s: System) {
    && s.chains == map[] && s.receipts == map[] && Sql.Empty(s.db) && s.workers == map[] && s.starting == map[]
    && s.ledger == map[] && s.owners == map[] && s.published == {}
  }

  function KeyOf(env: Envelope): ReceiptKey {
    ReceiptKey(ChainKind, env.chainId, env.nodeId)
  }

  function Lookup<K, V>(m: map<K, V>, k: K): Option<V> {
    if k in m then Some(m[k]) else None
  }

  function Proceed(plan: Plan): Phase {
    match plan
    case RunHandler => Execute
    case Finish(outcome) => Returned(outcome, 0)
    case TrySuccess(next) => CheckSuccess(next)
  }

  function Refused(reason: string): Phase {
    Returned(Uncommitted(reason), 0)
  }

  // ---------- Recovery checks of a recovered delivery ----------

  function AfterCheckFailure(chains: map<string, ChainState>, env: Envelope, plan: Plan): Phase {
    if env.chainId !in chains then Refused("not found")
    else
      var st := chains[env.chainId];
      if st.chainId != env.chainId then Refused("foreign state")
      else if DispatchConflict(st.dispatchId, env.dispatchId) then Refused("dispatch mismatch")
      else if !st.failed || st.completed then Proceed(plan)
      else
        var index := Position(st.nodes, env.nodeId);
        if index.None? then Refused("unknown node")
        else
          var disp := FailureDisposition(st, env.nodeId);
          if disp.Err? then Refused("disposition")
          else if !disp.value.owned then Proceed(plan)
          else if st.nodes[index.value].job != env.job then Refused("job mismatch")
          else FailureReceipt(st, plan)
  }

  /** A stored receipt of the current chain incarnation, as the store returns it. */
  function ReadReceipt(
      chains: map<string, ChainState>, receipts: map<ReceiptKey, Receipt>, env: Envelope): Result<Option<Receipt>>
  {
    if env.chainId !in chains then Err(NotFound)
    else if KeyOf(env) !in receipts then Ok(None)
    else
      var st, receipt := chains[env.chainId], receipts[KeyOf(env)];
      if receipt.workflowDispatchId != st.dispatchId || receipt.workflowCreatedAt != st.createdAt
      then Err(ForeignIncarnation)
      else if !receipt.Supported() then Err(UnsupportedReceipt)
      else Ok(Some(receipt))
  }

  /** The receipt names this node of the chain state the check has seen. */
  predicate ReceiptOfNode(env: Envelope, seen: ChainState, receipt: Receipt) {
    && receipt.kind == ChainKind && receipt.workflowId == env.chainId && receipt.memberId == env.nodeId
    && receipt.workflowDispatchId == seen.dispatchId && receipt.workflowCreatedAt == seen.createdAt
  }

  function AfterFailureReceipt(
      chains: map<string, ChainState>, receipts: map<ReceiptKey, Receipt>, env: Envelope, seen: ChainState, plan: Plan)
    : Phase
  {
    match ReadReceipt(chains, receipts, env)
    case Err(_) => Refused("receipt")
    case Ok(None) => Proceed(plan)
    case Ok(Some(receipt)) =>
      if !ReceiptOfNode(env, seen, receipt) then Refused("receipt mismatch")
      else if receipt.outcome != MemberFailed then Refused("receipt owns no failure")
      else if receipt.aggregateCompleted || receipt.aggregateCancelled then Refused("failed receipt owns completion")
      else if !ReceiptMatches(env, receipt, false) then Refused("receipt identity")
      else if seen.failure == "" then Returned(Permanent("already committed as failed"), 0)
      else Returned(Permanent(seen.failure), 0)
  }

  function AfterCheckSuccess(chains: map<string, ChainState>, env: Envelope, plan: Plan): Phase {
    if env.chainId !in chains then Refused("not found")
    else
      var st := chains[env.chainId];
      if st.chainId != env.chainId then Refused("foreign state")
      else if DispatchConflict(st.dispatchId, env.dispatchId) then Refused("dispatch mismatch")
      else
        var index := Position(st.nodes, env.nodeId);
        if index.None? then Refused("unknown node")
        else
          var disp := SuccessDisposition(st, env.nodeId);
          if disp.Err? then Refused("disposition")
          else if st.nodes[index.value].job != env.job then Refused("job mismatch")
          else if !disp.value then Proceed(plan)
          else SuccessReceipt(st, plan)
  }

  /** The still-pending continuation of a committed node. */
  function Successor(seen: ChainState, index: nat): Phase
    requires 0 <= seen.nextIndex
  {
    if Live(seen) && seen.nextIndex == index + 1 && seen.nextIndex < |seen.nodes|
    then Dispatching(seen.nodes[seen.nextIndex])
    else Returned(Succeeded, 0)
  }

  function AfterSuccessReceipt(
      chains: map<string, ChainState>, receipts: map<ReceiptKey, Receipt>, env: Envelope, attempt: int,
      provenance: Provenance, seen: ChainState): (Phase, seq<Fact>)
  {
    match Position(seen.nodes, env.nodeId)
    case None => (Refused("unknown node"), [])
    case Some(index) =>
      if seen.nextIndex < 0 then (Refused("invalid state"), [])
      else
        match ReadReceipt(chains, receipts, env)
        case Err(_) => (Refused("receipt"), [])
        case Ok(None) => (Successor(seen, index), [])
        case Ok(Some(receipt)) =>
          var final := index == |seen.nodes| - 1;
          if !ReceiptOfNode(env, seen, receipt) then (Refused("receipt mismatch"), [])
          else if !ReceiptMatches(env, receipt, false) then (Refused("receipt identity"), [])
          else if receipt.outcome != MemberSucceeded then (Refused("receipt owns no success"), [])
          else if receipt.aggregateCancelled then (Refused("successful receipt owns cancellation"), [])
          else if receipt.aggregateCompleted != final then (Refused("receipt position"), [])
          else if !OwnsRecoveredFacts(env, attempt, receipt, provenance) then (Successor(seen, index), [])
          else if !ReceiptMatches(env, receipt, true) || receipt.owner.attempt != attempt
          then (Refused("fact identity"), [])
          else if final
          then (Returned(Succeeded, 0), [JobSucceededFact(env, attempt), ChainFact(ChainCompleted, env)])
          else (Successor(seen, index), [JobSucceededFact(env, attempt), ChainFact(ChainAdvanced, env)])
  }

  // ---------- Store transitions of a delivery ----------

  /** Installs a chain transition in the store and in its history. */
  function Install(s: System, st: ChainState, key: ReceiptKey, written: Option<Receipt>): System {
    s.(chains := s.chains[st.chainId := st],
       ledger := s.ledger[st.chainId := st],
       receipts := if written.Some? then s.receipts[key := written.value] else s.receipts,
       owners := if written.Some? && key !in s.owners then s.owners[key := written.value] else s.owners)
  }

  /** Moves one worker and appends the facts it defers until settlement. */
  function Move(s: System, t: string, phase: Phase, facts: seq<Fact>): System
    requires t in s.workers
  {
    s.(workers := s.workers[t := Worker(s.workers[t].env, s.workers[t].facts + facts, phase)])
  }

  /** A fresh claim with a receipt tells the settlement owner that application state is committed. */
  function MarkCommitted(s: System, t: string, mark: bool): System
    requires t in s.db.deliveries
  {
    if mark then s.(db := Sql.Apply(s.db, Sql.Commit(t))) else s
  }

  /** A store transition of one delivery: the store changes, the claim may be marked, and the worker moves on. */
  function Commit(
      s: System, t: string, st: ChainState, written: Option<Receipt>, mark: bool, phase: Phase, facts: seq<Fact>)
    : System
    requires t in s.workers && t in s.db.deliveries
  {
    Move(MarkCommitted(Install(s, st, KeyOf(s.workers[t].env), written), t, mark), t, phase, facts)
  }

  function AfterFail(recovered: bool, cause: Failure, r: FailResult): Phase {
    if !r.owned then
      if !recovered then Returned(Succeeded, 0) else CheckFailure(TrySuccess(Finish(Succeeded)))
    else if !r.claimedNow then
      if recovered then CheckFailure(Finish(Errored(cause))) else Returned(Succeeded, 0)
    else if r.state.completed then Returned(Succeeded, 0)
    else if !r.state.failed then Refused("failure without terminal state")
    else Returned(Errored(cause), 0)
  }

  /** The store call a failed attempt makes. */
  function FailCall(s: System, t: string, cause: Failure, now: int): Transition<FailResult>
    requires t in s.workers && t in s.db.deliveries && s.workers[t].env.chainId in s.chains
  {
    var env := s.workers[t].env;
    FailChainNode(s.chains[env.chainId], Lookup(s.receipts, KeyOf(env)), env.nodeId, Some(cause.text),
                  ClaimOf(env, s.db.deliveries[t].attempt, t), now)
  }

  function FailCommit(s: System, t: string, cause: Failure, tr: Transition<FailResult>): System
    requires t in s.workers && t in s.db.deliveries
  {
    match tr.result
    case Err(_) => Move(s, t, Refused("fail chain"), [])
    case Ok(r) =>
      Commit(s, t, tr.state, tr.written, r.claimedNow && r.receipt.Some?,
             AfterFail(s.db.deliveries[t].recovered, cause, r), [])
  }

  function FailStep(s: System, t: string, input: Input, cause: Failure): System
    requires t in s.workers && t in s.db.deliveries
  {
    if input.storeDown || s.workers[t].env.chainId !in s.chains then Move(s, t, Refused("fail chain"), [])
    else FailCommit(s, t, cause, FailCall(s, t, cause, input.now))
  }

  /** The next point and the facts of a successful attempt. */
  function AfterAdvance(env: Envelope, attempt: int, recovered: bool, r: AdvanceResult): (Phase, seq<Fact>) {
    if !r.claimedNow then
      if !r.successOwned then (Returned(Succeeded, 0), [])
      else if recovered then (CheckSuccess(Finish(Uncommitted("success without advanced state"))), [])
      else if r.done then (Returned(Succeeded, 0), [])
      else if r.next.None? then (Refused("chain store omitted successor"), [])
      else (Dispatching(r.next.value), [])
    else if r.done then
      if !r.state.completed && r.state.failed then (Returned(Succeeded, 0), [])
      else if !r.state.completed then (Refused("done without terminal state"), [])
      else
        match Position(r.state.nodes, env.nodeId)
        case None => (Refused("done for an unknown node"), [])
        case Some(index) =>
          if index != |r.state.nodes| - 1 then (Returned(Succeeded, 0), [])
          else (Returned(Succeeded, 0), [JobSucceededFact(env, attempt), ChainFact(ChainCompleted, env)])
    else
      ((if r.next.None? then Refused("chain store omitted successor") else Dispatching(r.next.value)),
       [JobSucceededFact(env, attempt), ChainFact(ChainAdvanced, env)])
  }

  /** The store call a successful attempt makes. */
  function AdvanceCall(s: System, t: string, now: int): Transition<AdvanceResult>
    requires t in s.workers && t in s.db.deliveries && s.workers[t].env.chainId in s.chains
  {
    var env := s.workers[t].env;
    AdvanceChain(s.chains[env.chainId], Lookup(s.receipts, KeyOf(env)), env.nodeId,
                 ClaimOf(env, s.db.deliveries[t].attempt, t), now)
  }

  function AdvanceCommit(s: System, t: string, tr: Transition<AdvanceResult>): System
    requires t in s.workers && t in s.db.deliveries
  {
    match tr.result
    case Err(_) => Move(s, t, Refused("advance chain"), [])
    case Ok(r) =>
      var next := AfterAdvance(s.workers[t].env, s.db.deliveries[t].attempt, s.db.deliveries[t].recovered, r);
      Commit(s, t, tr.state, tr.written, r.claimedNow && r.receipt.Some?, next.0, next.1)
  }

  function AdvanceStep(s: System, t: string, input: Input): System
    requires t in s.workers && t in s.db.deliveries
  {
    if input.storeDown || s.workers[t].env.chainId !in s.chains then Move(s, t, Refused("advance chain"), [])
    else AdvanceCommit(s, t, AdvanceCall(s, t, input.now))
  }

  // ---------- Enqueue and settlement ----------

  /** A negative retry policy is rejected before any row is written. */
  predicate Inserts(env: Envelope, reply: Reply) {
    reply != Rejected && env.job.options.retry >= 0
  }

  function Enqueue(s: System, env: Envelope, reply: Reply, now: int): System {
    if Inserts(env, reply) then s.(db := Sql.Apply(s.db, RowOf(env, now))) else s
  }

  function NodeEnvelope(dispatchId: string, chainId: string, node: ChainNode, jobId: string): Envelope {
    Envelope(dispatchId, jobId, chainId, "", node.nodeId, node.job)
  }

  function DispatchStep(s: System, t: string, input: Input, node: ChainNode): System
    requires t in s.workers
  {
    var env := s.workers[t].env;
    var next := NodeEnvelope(env.dispatchId, env.chainId, node, input.jobId);
    var phase := if input.reply == Accepted && Inserts(next, input.reply) then Returned(Succeeded, 0)
                 else Refused("dispatch next chain node");
    Move(Enqueue(s, next, input.reply, input.now), t, phase, [])
  }

  function Publications(w: Worker, t: string): set<Publication> {
    set i | 0 <= i < |w.facts| :: Publication(w.env.chainId, w.env.nodeId, w.facts[i], t)
  }

  /**
   One finalization attempt, then the next one, then lineage repair. Deferred facts are published only by a settlement
   statement that changed its row and reported so.
   */
  function SettleStep(s: System, t: string, input: Input, outcome: Outcome, tries: nat): System
    requires t in s.workers && t in s.db.deliveries
  {
    if tries < Sql.FINALIZE_RETRY_COUNT then
      var s1 := if input.applied then s.(db := Sql.Apply(s.db, Sql.Settle(t, outcome, input.now))) else s;
      if input.applied && input.acknowledged && Sql.Owns(s.db.rows, s.db.deliveries[t])
      then s1.(published := s1.published + Publications(s.workers[t], t), workers := s1.workers - {t})
      else Move(s1, t, Returned(outcome, tries + 1), [])
    else
      var s1 := if input.applied then s.(db := Sql.Apply(s.db, Sql.Restore(t, input.now))) else s;
      s1.(workers := s1.workers - {t})
  }

  // ---------- One step of one worker ----------

  function AfterExecute(d: Sql.Delivery, outcome: Outcome): Phase {
    match ClassifyAttempt(Attempt(d.attempt, d.maxRetry), outcome)
    case AttemptSucceeded => Advancing
    case AttemptFailed => Failing(outcome.failure)
    case AttemptRetry => Returned(outcome, 0)
    case AttemptRedeliver => Returned(outcome, 0)
  }

  function ProvenanceOf(d: Sql.Delivery): Provenance {
    Provenance(d.token, d.recoveryToken, d.recovered)
  }

  /** The points that only read the store or run the handler: where the worker stands next, and the facts it gains. */
  function NextPoint(
      chains: map<string, ChainState>, receipts: map<ReceiptKey, Receipt>, w: Worker, d: Sql.Delivery, input: Input)
    : (Phase, seq<Fact>)
    requires !w.phase.Failing? && !w.phase.Advancing? && !w.phase.Dispatching? && !w.phase.Returned?
  {
    match w.phase
    case Entered => (if d.recovered then CheckFailure(TrySuccess(RunHandler)) else Execute, [])
    case Execute => (AfterExecute(d, input.outcome), [])
    case CheckFailure(plan) =>
      (if input.storeDown then Refused("read chain") else AfterCheckFailure(chains, w.env, plan), [])
    case FailureReceipt(seen, plan) =>
      (if input.storeDown then Refused("read receipt") else AfterFailureReceipt(chains, receipts, w.env, seen, plan),
        [])
    case CheckSuccess(plan) =>
      (if input.storeDown then Refused("read chain") else AfterCheckSuccess(chains, w.env, plan), [])
    case SuccessReceipt(seen, plan) =>
      if input.storeDown then (Refused("read receipt"), [])
      else AfterSuccessReceipt(chains, receipts, w.env, d.attempt, ProvenanceOf(d), seen)
  }

  function WorkStep(s: System, t: string, input: Input): System
    requires t in s.workers && t in s.db.deliveries
  {
    match s.workers[t].phase
    case Failing(cause) => FailStep(s, t, input, cause)
    case Advancing => AdvanceStep(s, t, input)
    case Dispatching(node) => DispatchStep(s, t, input, node)
    case Returned(outcome, tries) => SettleStep(s, t, input, outcome, tries)
    case _ =>
      var next := NextPoint(s.chains, s.receipts, s.workers[t], s.db.deliveries[t], input);
      Move(s, t, next.0, next.1)
  }

  // ---------- Actions ----------

  datatype Action =
    | Create(record: ChainRecord, now: int)
    | Start(chainId: string, jobId: string, reply: Reply, now: int)
    | FailStart(chainId: string, cause: string, now: int)
    | ClaimRow(id: nat, token: string, now: int)
    | Recover(now: int, cfg: Sql.LeaseConfig)
    | Crash(token: string)
    | Prune(before: int)
    | Work(token: string, input: Input)

  predicate Enabled(s: System, a: Action) {
    match a
    case Create(record, _) =>
      record.chainId != "" && record.chainId !in s.ledger && record.dispatchId != "" && NodesOk(record.nodes)
    case Start(chainId, jobId, _, _) =>
      chainId in s.starting && s.starting[chainId] == Creating && chainId in s.chains
      && |s.chains[chainId].nodes| > 0 && jobId != ""
    case FailStart(chainId, _, _) =>
      chainId in s.starting && s.starting[chainId] == StartFailed && chainId in s.chains
      && |s.chains[chainId].nodes| > 0
    case ClaimRow(id, token, now) => Sql.Enabled(s.db, Sql.Claim(id, token, now))
    case Recover(_, _) => true
    case Crash(token) => token in s.workers
    case Prune(_) => true
    case Work(token, input) => token in s.workers && token in s.db.deliveries && input.jobId != ""
  }

  /** The first node is enqueued after the chain is stored; an error leaves the chain to be failed by its creator. */
  function StartChain(s: System, chainId: string, jobId: string, reply: Reply, now: int): System
    requires chainId in s.chains && |s.chains[chainId].nodes| > 0
  {
    var st := s.chains[chainId];
    var env := NodeEnvelope(st.dispatchId, chainId, st.nodes[0], jobId);
    var s1 := Enqueue(s, env, reply, now);
    if reply == Accepted && Inserts(env, reply) then s1.(starting := s1.starting - {chainId})
    else s1.(starting := s1.starting[chainId := StartFailed])
  }

  function FailStartedChain(s: System, chainId: string, cause: string, now: int): System
    requires chainId in s.chains && |s.chains[chainId].nodes| > 0
  {
    var node := s.chains[chainId].nodes[0].nodeId;
    var key := ReceiptKey(ChainKind, chainId, node);
    var tr := FailChainNode(s.chains[chainId], Lookup(s.receipts, key), node, Some(cause), NO_CLAIM, now);
    if tr.result.Err? then s
    else Install(s, tr.state, key, tr.written).(starting := s.starting - {chainId})
  }

  predicate Expired(st: ChainState, before: int) {
    (st.completed || st.failed) && st.updatedAt < before
  }

  function PruneStore(s: System, before: int): System {
    s.(chains := map c | c in s.chains && !Expired(s.chains[c], before) :: s.chains[c],
       receipts := map k | k in s.receipts
                           && !(k.workflowId in s.chains && Expired(s.chains[k.workflowId], before)) :: s.receipts[k])
  }

  function Do(s: System, a: Action): System
    requires Enabled(s, a)
  {
    match a
    case Create(record, now) =>
      var st := NewChain(record, now);
      s.(chains := s.chains[record.chainId := st], ledger := s.ledger[record.chainId := st],
         starting := s.starting[record.chainId := Creating])
    case Start(chainId, jobId, reply, now) => StartChain(s, chainId, jobId, reply, now)
    case FailStart(chainId, cause, now) => FailStartedChain(s, chainId, cause, now)
    case ClaimRow(id, token, now) =>
      s.(db := Sql.Apply(s.db, Sql.Claim(id, token, now)),
         workers := s.workers[token := Worker(s.db.rows[id].payload, [], Entered)])
    case Recover(now, cfg) => s.(db := Sql.Apply(s.db, Sql.RecoverStale(now, cfg)))
    case Crash(token) => s.(workers := s.workers - {token})
    case Prune(before) => PruneStore(s, before)
    case Work(token, input) => WorkStep(s, token, input)
  }

  ghost predicate IsRun(s: System, actions: seq<Action>, end: System)
    decreases |actions|
  {
    if actions == [] then end == s
    else Enabled(s, actions[0]) && IsRun(Do(s, actions[0]), actions[1..], end)
  }
}
