/**
 The members of one batch executed over SQL queue rows: the recovery check of a recovered delivery, the handler, the
 first-writer settlement and the fenced row settlement. Steps interleave freely, leases may overlap, store calls and
 statements may fail, settlements may be applied although they report an error, and workers may vanish.
 */
module BatchEngine {
  import opened Attempts
  import opened WorkflowTypes
  import opened Identity
  import opened Recovery
  import opened BatchStore
  import opened QueueFrames
  import Sql = SqlRows

  const ALREADY_FAILED := "already committed as failed; original cause was not persisted"

  /** What follows a recovery check that finds no receipt. */
  datatype Plan = RunHandler | ReturnNil

  datatype Phase =
    | Entered
    | CheckState(plan: Plan)
    | CheckReceipt(seen: BatchState, plan: Plan)
    | Starting
    | Execute
    | Failing(cause: Failure)
    | Succeeding
    | Returned(outcome: Outcome, tries: nat)

  datatype Worker = Worker(env: Envelope, facts: seq<Fact>, phase: Phase)

  datatype Input = Input(now: int, storeDown: bool, outcome: Outcome, applied: bool, acknowledged: bool)

  datatype Publication = Publication(memberId: string, fact: Fact, generation: string)

  /** `jobs` is the batch record; `batch` outlives its retention, which `stored` tracks. */
  datatype System = System(
    jobs: map<string, StoredJob>,
    batch: Batch,
    stored: bool,
    db: Db,
    workers: map<string, Worker>,
    accepted: set<string>,
    published: set<Publication>)

  function MemberEnvelope(st: BatchState, id: string, job: StoredJob): Envelope {
    Envelope(st.dispatchId, id, "", st.batchId, "", job)
  }

  function Proceed(plan: Plan): Phase {
    if plan == RunHandler then Starting else Returned(Succeeded, 0)
  }

  function Refused(reason: string): Phase {
    Returned(Uncommitted(reason), 0)
  }

  // ---------- Recovery ----------

  /** `readable` is false when the store is unavailable or no longer holds the batch. */
  function AfterCheckState(b: Batch, readable: bool, env: Envelope, plan: Plan): Phase {
    if !readable then Refused("read batch")
    else if b.state.batchId != env.batchId then Refused("foreign state")
    else if DispatchConflict(b.state.dispatchId, env.dispatchId) then Refused("dispatch mismatch")
    else if !RecoverableState(b.state) then Refused("inconsistent batch")
    else CheckReceipt(b.state, plan)
  }

  /** The receipt belongs to the current incarnation and names this member of the state the check has seen. */
  predicate ReceiptOfMember(b: Batch, env: Envelope, seen: BatchState, r: Receipt) {
    && r.workflowDispatchId == b.state.dispatchId && r.workflowCreatedAt == b.state.createdAt && r.Supported()
    && r.kind == BatchKind && r.workflowId == env.batchId && r.memberId == env.jobId
    && r.workflowDispatchId == seen.dispatchId && r.workflowCreatedAt == seen.createdAt
    && ReceiptMatches(env, r, true) && ShapeOk(seen, r)
  }

  function AfterCheckReceipt(
      b: Batch, readable: bool, env: Envelope, attempt: int, p: Provenance, seen: BatchState, plan: Plan)
    : (Phase, seq<Fact>)
  {
    if !readable then (Refused("read receipt"), [])
    else if env.jobId !in b.receipts then (Proceed(plan), [])
    else
      var r := b.receipts[env.jobId];
      if !ReceiptOfMember(b, env, seen, r) then (Refused("receipt mismatch"), [])
      else
        var exact := OwnsRecoveredFacts(env, attempt, r, p);
        var completed := if exact && r.aggregateCompleted && !r.aggregateCancelled && seen.pending == 0
                            && seen.completed && !seen.cancelled
                         then [BatchFact(BatchCompleted, env)] else [];
        match r.outcome
        case MemberSucceeded =>
          if !exact then (Returned(Succeeded, 0), [])
          else if r.owner.attempt != attempt then (Refused("fact identity"), [])
          else (Returned(Succeeded, 0), [JobSucceededFact(env, attempt), BatchFact(BatchProgressed, env)] + completed)
        case MemberFailed => (Returned(Permanent(ALREADY_FAILED), 0), completed)
        case MemberOther(_) => (Refused("unsupported outcome"), [])
  }

  // ---------- Settlement ----------

  function TerminalFacts(env: Envelope, r: SettleResult, outcome: MemberOutcome): seq<Fact> {
    if OwnsTerminal(r, outcome) && !r.state.cancelled then [BatchFact(BatchCompleted, env)] else []
  }

  function AfterFail(env: Envelope, recovered: bool, cause: Failure, r: SettleResult): (Phase, seq<Fact>) {
    if !r.owned then ((if recovered then CheckState(ReturnNil) else Returned(Succeeded, 0)), [])
    else if !r.claimedNow then (Returned(Succeeded, 0), [])
    else (Returned(Errored(cause), 0), [BatchFact(BatchProgressed, env)] + TerminalFacts(env, r, MemberFailed))
  }

  function AfterSuccess(env: Envelope, recovered: bool, attempt: int, r: SettleResult): (Phase, seq<Fact>) {
    if !r.owned then (Returned(Succeeded, 0), [])
    else if !r.claimedNow then ((if recovered then CheckState(ReturnNil) else Returned(Succeeded, 0)), [])
    else (Returned(Succeeded, 0),
          [JobSucceededFact(env, attempt), BatchFact(BatchProgressed, env)] + TerminalFacts(env, r, MemberSucceeded))
  }

  function AfterExecute(d: Sql.Delivery, outcome: Outcome): Phase {
    match ClassifyAttempt(Attempt(d.attempt, d.maxRetry), outcome)
    case AttemptSucceeded => Succeeding
    case AttemptFailed => Failing(outcome.failure)
    case AttemptRetry => Returned(outcome, 0)
    case AttemptRedeliver => Returned(outcome, 0)
  }

  /** One store call of a worker: the batch it leaves, where the worker stands next and the facts it gains. */
  datatype Effect = Effect(batch: Batch, commits: bool, phase: Phase, facts: seq<Fact>)

  function SettleEffect(b: Batch, w: Worker, d: Sql.Delivery, outcome: MemberOutcome, now: int): Effect {
    var (after, result) := SettleBatch(b, w.env.jobId, outcome, ClaimOf(w.env, d.attempt, d.token), now);
    match result
    case Err(_) => Effect(b, false, Refused("settle member"), [])
    case Ok(r) =>
      var next := if w.phase.Failing? then AfterFail(w.env, d.recovered, w.phase.cause, r)
                  else AfterSuccess(w.env, d.recovered, d.attempt, r);
      Effect(after, r.claimedNow && r.receipt.Some?, next.0, next.1)
  }

  function MutationEffect(b: Batch, w: Worker, d: Sql.Delivery, now: int): Effect
    requires w.phase.Starting? || w.phase.Failing? || w.phase.Succeeding?
  {
    match w.phase
    case Starting => Effect(StartMember(b, w.env.jobId, now), false, Execute, [])
    case Failing(_) => SettleEffect(b, w, d, MemberFailed, now)
    case Succeeding => SettleEffect(b, w, d, MemberSucceeded, now)
  }

  /** Every point before settlement of the row. */
  function PointEffect(b: Batch, stored: bool, w: Worker, d: Sql.Delivery, input: Input): Effect
    requires !w.phase.Returned?
  {
    if w.phase.Starting? || w.phase.Failing? || w.phase.Succeeding? then
      if input.storeDown || !stored || w.env.jobId !in b.jobs then Effect(b, false, Refused("store"), [])
      else MutationEffect(b, w, d, input.now)
    else
      match w.phase
      case Entered => Effect(b, false, if d.recovered then CheckState(RunHandler) else Starting, [])
      case Execute => Effect(b, false, AfterExecute(d, input.outcome), [])
      case CheckState(plan) => Effect(b, false, AfterCheckState(b, stored && !input.storeDown, w.env, plan), [])
      case CheckReceipt(seen, plan) =>
        var p := Provenance(d.token, d.recoveryToken, d.recovered);
        var next := AfterCheckReceipt(b, stored && !input.storeDown, w.env, d.attempt, p, seen, plan);
        Effect(b, false, next.0, next.1)
  }

  function PointStep(s: System, t: string, input: Input): System
    requires t in s.workers && t in s.db.deliveries && !s.workers[t].phase.Returned?
  {
    var w := s.workers[t];
    var e := PointEffect(s.batch, s.stored, w, s.db.deliveries[t], input);
    s.(batch := e.batch, workers := s.workers[t := Worker(w.env, w.facts + e.facts, e.phase)],
       db := if e.commits then Sql.Apply(s.db, Sql.Commit(t)) else s.db)
  }

  function Publications(w: Worker, t: string): set<Publication> {
    set i | 0 <= i < |w.facts| :: Publication(w.env.jobId, w.facts[i], t)
  }

  function SettleStep(s: System, t: string, input: Input, outcome: Outcome, tries: nat): System
    requires t in s.workers && t in s.db.deliveries
  {
    if tries < Sql.FINALIZE_RETRY_COUNT then
      var s1 := if input.applied then s.(db := Sql.Apply(s.db, Sql.Settle(t, outcome, input.now))) else s;
      if input.applied && input.acknowledged && Sql.Owns(s.db.rows, s.db.deliveries[t])
      then s1.(published := s1.published + Publications(s.workers[t], t), workers := s1.workers - {t})
      else s1.(workers := s1.workers[t := s.workers[t].(phase := Returned(outcome, tries + 1))])
    else
      var s1 := if input.applied then s.(db := Sql.Apply(s.db, Sql.Restore(t, input.now))) else s;
      s1.(workers := s1.workers - {t})
  }

  // ---------- Actions ----------

  datatype Action =
    | Offer(id: string, now: int)
    | ClaimRow(row: nat, token: string, now: int)
    | Recover(now: int, cfg: Sql.LeaseConfig)
    | Crash(token: string)
    | Cancel(now: int)
    | Prune
    | Work(token: string, input: Input)

  /** Cancellation may come at any time; pruning is limited to batches that are complete. */
  predicate Enabled(s: System, a: Action) {
    match a
    case Offer(id, _) => id in s.jobs && s.jobs[id].options.retry >= 0
    case ClaimRow(row, token, now) => Sql.Enabled(s.db, Sql.Claim(row, token, now))
    case Recover(_, _) => true
    case Crash(token) => token in s.workers
    case Cancel(_) => true
    case Prune => s.batch.state.completed
    case Work(token, _) => token in s.workers && token in s.db.deliveries
  }

  function Do(s: System, a: Action): System
    requires Enabled(s, a)
  {
    match a
    case Offer(id, now) =>
      s.(db := Sql.Apply(s.db, RowOf(MemberEnvelope(s.batch.state, id, s.jobs[id]), now)),
         accepted := s.accepted + {id})
    case ClaimRow(row, token, now) =>
      s.(db := Sql.Apply(s.db, Sql.Claim(row, token, now)),
         workers := s.workers[token := Worker(s.db.rows[row].payload, [], Entered)])
    case Recover(now, cfg) => s.(db := Sql.Apply(s.db, Sql.RecoverStale(now, cfg)))
    case Crash(token) => s.(workers := s.workers - {token})
    case Cancel(now) => if s.stored then s.(batch := CancelBatch(s.batch, now)) else s
    case Prune => s.(stored := false)
    case Work(token, input) =>
      match s.workers[token].phase
      case Returned(outcome, tries) => SettleStep(s, token, input, outcome, tries)
      case _ => PointStep(s, token, input)
  }

  ghost predicate IsRun(s: System, actions: seq<Action>, end: System)
    decreases |actions|
  {
    if actions == [] then end == s
    else Enabled(s, actions[0]) && IsRun(Do(s, actions[0]), actions[1..], end)
  }

  /** A batch just created from a valid record, with nothing queued. */
  predicate Initial(s: System, record: BatchRecord, now: int) {
    && record.batchId != "" && record.dispatchId != "" && JobsOk(record.jobs)
    && s.jobs.Keys == Members(record.jobs)
    && (forall i :: 0 <= i < |record.jobs| ==> s.jobs[record.jobs[i].jobId] == record.jobs[i].job)
    && s.batch == NewBatch(record, now) && s.stored && Sql.Empty(s.db)
    && s.workers == map[] && s.accepted == {} && s.published == {}
  }
}
