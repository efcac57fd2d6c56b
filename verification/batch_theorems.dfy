/** What every run of a batch over SQL rows guarantees. */
module BatchTheorems {
  import opened Common
  import opened Attempts
  import opened WorkflowTypes
  import opened Identity
  import opened Recovery
  import opened BatchStore
  import opened QueueFrames
  import opened BatchEngine
  import Sql = SqlRows

  type Jobs = map<string, StoredJob>

  // ---------- The invariant ----------

  predicate IsDone(b: Batch, id: string) {
    id in b.jobs && b.jobs[id].done
  }

  predicate MemberOk(b: Batch, jobs: Jobs, env: Envelope) {
    env.jobId in jobs && env == MemberEnvelope(b.state, env.jobId, jobs[env.jobId])
  }

  /** The batch agrees with its record, and every receipt was claimed by a delivery of its own member. */
  ghost predicate BatchOk(b: Batch, jobs: Jobs) {
    && Whole(Healthy(b))
    && b.jobs.Keys == jobs.Keys && b.state.dispatchId != "" && "" !in jobs
    && forall id :: id in b.receipts ==> OwnerOk(b.receipts[id].owner, b.state.dispatchId, jobs, id)
  }

  predicate OwnerOk(owner: Claim, dispatchId: string, jobs: Jobs, id: string) {
    && id in jobs && owner.dispatchId == dispatchId && owner.jobId == id
    && owner.jobFingerprint == Fingerprint(jobs[id])
  }

  /** A delivery may return conclusively only when its member is settled. */
  predicate PhaseOk(b: Batch, d: Sql.Delivery, id: string, phase: Phase) {
    match phase
    case CheckState(plan) => plan == ReturnNil ==> IsDone(b, id)
    case CheckReceipt(_, plan) => plan == ReturnNil ==> IsDone(b, id)
    case Returned(outcome, _) => Conclusive(d, outcome) ==> IsDone(b, id)
    case _ => true
  }

  /** The facts a receipt entitles its member to. */
  predicate FactOwned(b: Batch, jobs: Jobs, id: string, fact: Fact) {
    && id in b.receipts && id in jobs
    && var env, r := MemberEnvelope(b.state, id, jobs[id]), b.receipts[id];
       || (r.outcome == MemberSucceeded && fact == JobSucceededFact(env, r.owner.attempt))
       || fact == BatchFact(BatchProgressed, env)
       || (r.aggregateCompleted && !r.aggregateCancelled && fact == BatchFact(BatchCompleted, env))
  }

  predicate AllOwned(b: Batch, jobs: Jobs, id: string, facts: seq<Fact>) {
    forall i :: 0 <= i < |facts| ==> FactOwned(b, jobs, id, facts[i])
  }

  predicate WorkerOk(b: Batch, jobs: Jobs, db: Db, t: string, w: Worker) {
    && t in db.deliveries && MemberOk(b, jobs, w.env)
    && PhaseOk(b, db.deliveries[t], w.env.jobId, w.phase)
    && AllOwned(b, jobs, w.env.jobId, w.facts)
    && (db.deliveries[t].id in db.rows ==> db.rows[db.deliveries[t].id].payload == w.env)
  }

  predicate WorkersOk(b: Batch, jobs: Jobs, db: Db, workers: map<string, Worker>) {
    forall t :: t in workers ==> WorkerOk(b, jobs, db, t, workers[t])
  }

  predicate RowsOk(b: Batch, jobs: Jobs, db: Db) {
    forall row :: row in db.rows ==> MemberOk(b, jobs, db.rows[row].payload)
  }

  predicate PublishedOk(b: Batch, jobs: Jobs, db: Db, published: set<Publication>) {
    forall p :: p in published ==>
      FactOwned(b, jobs, p.memberId, p.fact) && p.generation in db.deliveries && Sql.Count(db, p.generation) == 1
  }

  predicate Queued(db: Db, id: string, row: nat) {
    row in db.rows && db.rows[row].payload.jobId == id && db.rows[row].state != Sql.Dead
  }

  /** An accepted member is settled or still queued. */
  ghost predicate Pursued(b: Batch, db: Db, accepted: set<string>) {
    forall id :: id in accepted ==> IsDone(b, id) || exists row :: Queued(db, id, row)
  }

  ghost predicate Parts(s: System) {
    && Sql.Inv(s.db) && BatchOk(s.batch, s.jobs) && RowsOk(s.batch, s.jobs, s.db)
    && WorkersOk(s.batch, s.jobs, s.db, s.workers)
    && PublishedOk(s.batch, s.jobs, s.db, s.published)
    && Pursued(s.batch, s.db, s.accepted)
  }

  ghost predicate Inv(s: System) {
    forall k :: Unseal(k) ==> Parts(s)
  }

  // ---------- Growth of the batch ----------

  /** Later states of one batch: outcomes and receipts are final, identity does not change. */
  predicate Grows(a: Batch, b: Batch) {
    && Preserves(a, b)
    && b.state.batchId == a.state.batchId && b.state.dispatchId == a.state.dispatchId
    && b.state.createdAt == a.state.createdAt
  }

  lemma PhaseGrows(a: Batch, b: Batch, d: Sql.Delivery, e: Sql.Delivery, id: string, phase: Phase)
    requires Grows(a, b) && SameClaim(d, e) && PhaseOk(a, d, id, phase)
    ensures PhaseOk(b, e, id, phase)
  {
  }

  lemma FactGrows(a: Batch, b: Batch, jobs: Jobs, id: string, fact: Fact)
    requires Grows(a, b) && Healthy(a) && FactOwned(a, jobs, id, fact)
    ensures FactOwned(b, jobs, id, fact)
  {
    HealthyMember(a, id);
  }

  lemma FactsGrow(a: Batch, b: Batch, jobs: Jobs, id: string, facts: seq<Fact>)
    requires Grows(a, b) && Healthy(a) && AllOwned(a, jobs, id, facts)
    ensures AllOwned(b, jobs, id, facts)
  {
    forall i | 0 <= i < |facts| ensures FactOwned(b, jobs, id, facts[i]) {
      FactGrows(a, b, jobs, id, facts[i]);
    }
  }

  lemma WorkerGrows(a: Batch, b: Batch, jobs: Jobs, db: Db, db': Db, t: string, w: Worker)
    requires Grows(a, b) && Healthy(a) && DbGrows(db, db') && Sql.DeliveriesOk(db) && WorkerOk(a, jobs, db, t, w)
    ensures WorkerOk(b, jobs, db', t, w)
  {
    assert Sql.DeliveryOk(db, t);
    PhaseGrows(a, b, db.deliveries[t], db'.deliveries[t], w.env.jobId, w.phase);
    FactsGrow(a, b, jobs, w.env.jobId, w.facts);
  }

  lemma WorkersGrow(a: Batch, b: Batch, jobs: Jobs, db: Db, db': Db, workers: map<string, Worker>)
    requires Grows(a, b) && Healthy(a) && DbGrows(db, db') && Sql.DeliveriesOk(db) && WorkersOk(a, jobs, db, workers)
    ensures WorkersOk(b, jobs, db', workers)
  {
    forall t | t in workers ensures WorkerOk(b, jobs, db', t, workers[t]) {
      WorkerGrows(a, b, jobs, db, db', t, workers[t]);
    }
  }

  lemma PublishedGrow(a: Batch, b: Batch, jobs: Jobs, db: Db, db': Db, published: set<Publication>)
    requires Grows(a, b) && Healthy(a) && DbGrows(db, db') && Sql.SettledOnce(db')
    requires PublishedOk(a, jobs, db, published)
    ensures PublishedOk(b, jobs, db', published)
  {
    forall p | p in published
      ensures FactOwned(b, jobs, p.memberId, p.fact)
      ensures p.generation in db'.deliveries && Sql.Count(db', p.generation) == 1
    {
      FactGrows(a, b, jobs, p.memberId, p.fact);
    }
  }

  lemma PursuedGrows(a: Batch, b: Batch, db: Db, accepted: set<string>)
    requires Grows(a, b) && Pursued(a, db, accepted)
    ensures Pursued(b, db, accepted)
  {
  }

  /** The batch may grow under a state that keeps everything else. */
  lemma BatchInv(s: System, b: Batch)
    requires Inv(s) && Grows(s.batch, b) && BatchOk(b, s.jobs)
    ensures Inv(s.(batch := b))
  {
    assert Unseal(0);
    DbReflexive(s.db);
    WorkersGrow(s.batch, b, s.jobs, s.db, s.db, s.workers);
    PublishedGrow(s.batch, b, s.jobs, s.db, s.db, s.published);
    PursuedGrows(s.batch, b, s.db, s.accepted);
  }

  // ---------- Queue statements ----------

  lemma SameBatchGrows(b: Batch)
    ensures Grows(b, b)
  {
  }

  /** A statement keeps every accepted member pursued unless it settles an unsettled member conclusively. */
  lemma PursuedKept(b: Batch, db: Db, step: Sql.Step<Envelope>, accepted: set<string>)
    requires Sql.Inv(db) && Sql.Enabled(db, step) && Pursued(b, db, accepted)
    requires step.Settle? && Sql.Owns(db.rows, db.deliveries[step.token])
             && Conclusive(db.deliveries[step.token], step.outcome) ==>
               IsDone(b, db.rows[db.deliveries[step.token].id].payload.jobId)
    ensures Pursued(b, Sql.Apply(db, step), accepted)
  {
    var db' := Sql.Apply(db, step);
    forall id | id in accepted && !IsDone(b, id) ensures exists row :: Queued(db', id, row) {
      var row :| Queued(db, id, row);
      UnsettledRowStays(db, step, row);
      assert Queued(db', id, row);
    }
  }

  lemma QueueInv(s: System, step: Sql.Step<Envelope>)
    requires Inv(s) && Sql.Enabled(s.db, step) && !step.Insert?
    requires step.Settle? && Sql.Owns(s.db.rows, s.db.deliveries[step.token])
             && Conclusive(s.db.deliveries[step.token], step.outcome) ==>
               IsDone(s.batch, s.db.rows[s.db.deliveries[step.token].id].payload.jobId)
    ensures Inv(s.(db := Sql.Apply(s.db, step)))
  {
    assert Unseal(0);
    var db' := Sql.Apply(s.db, step);
    QueueStepGrows(s.db, step);
    SameBatchGrows(s.batch);
    WorkersGrow(s.batch, s.batch, s.jobs, s.db, db', s.workers);
    PublishedGrow(s.batch, s.batch, s.jobs, s.db, db', s.published);
    PursuedKept(s.batch, s.db, step, s.accepted);
  }

  // ---------- Points ----------

  /** Recovered facts are the facts of the receipt; a conclusive return has a receipt behind it. */
  lemma CheckReceiptOk(
      b: Batch, jobs: Jobs, stored: bool, env: Envelope, d: Sql.Delivery, p: Provenance, seen: BatchState, plan: Plan)
    requires BatchOk(b, jobs) && MemberOk(b, jobs, env) && (plan == ReturnNil ==> IsDone(b, env.jobId))
    ensures var next := AfterCheckReceipt(b, stored, env, d.attempt, p, seen, plan);
            PhaseOk(b, d, env.jobId, next.0) && AllOwned(b, jobs, env.jobId, next.1)
  {
    HealthyMember(b, env.jobId);
  }

  /** A settlement in its own member's name is accepted, and its member has the receipt it reports. */
  lemma SettledMember(b: Batch, id: string, outcome: MemberOutcome, claim: Claim, now: int)
    requires Healthy(b) && id in b.jobs && !outcome.MemberOther? && claim.Valid()
    requires claim.dispatchId == b.state.dispatchId
    ensures var after, r := SettleBatch(b, id, outcome, claim, now).0, SettleBatch(b, id, outcome, claim, now).1;
            && r.Ok? && r.value.state == after.state && IsDone(after, id)
            && id in after.receipts && r.value.receipt == Some(after.receipts[id])
  {
    HealthyMember(b, id);
  }

  lemma SettledOwners(b: Batch, jobs: Jobs, id: string, outcome: MemberOutcome, claim: Claim, now: int)
    requires BatchOk(b, jobs) && OwnerOk(claim, b.state.dispatchId, jobs, id)
    requires Whole(Healthy(SettleBatch(b, id, outcome, claim, now).0))
    ensures BatchOk(SettleBatch(b, id, outcome, claim, now).0, jobs)
  {
  }

  lemma SettledBatchOk(b: Batch, jobs: Jobs, env: Envelope, outcome: MemberOutcome, claim: Claim, now: int)
    requires BatchOk(b, jobs) && MemberOk(b, jobs, env) && !outcome.MemberOther?
    requires claim.Valid() && claim.dispatchId == env.dispatchId && claim.jobId == env.jobId
    requires claim.jobFingerprint == Fingerprint(env.job)
    ensures var (after, r) := SettleBatch(b, env.jobId, outcome, claim, now);
            && BatchOk(after, jobs) && Grows(b, after) && r.Ok? && IsDone(after, env.jobId)
            && env.jobId in after.receipts && r.value.receipt == Some(after.receipts[env.jobId])
            && r.value.state == after.state
  {
    PerformKeepsHealth(b, Settle(env.jobId, outcome, claim, now));
    SettledMember(b, env.jobId, outcome, claim, now);
    SettledOwners(b, jobs, env.jobId, outcome, claim, now);
  }

  /** A settlement gains only facts its receipt owns, and leaves its member settled. */
  lemma SettleEffectOk(b: Batch, jobs: Jobs, w: Worker, d: Sql.Delivery, outcome: MemberOutcome, now: int)
    requires BatchOk(b, jobs) && MemberOk(b, jobs, w.env) && ClaimOf(w.env, d.attempt, d.token).Valid()
    requires outcome == if w.phase.Failing? then MemberFailed else MemberSucceeded
    ensures var e := SettleEffect(b, w, d, outcome, now);
            && BatchOk(e.batch, jobs) && Grows(b, e.batch)
            && PhaseOk(e.batch, d, w.env.jobId, e.phase) && AllOwned(e.batch, jobs, w.env.jobId, e.facts)
  {
    var claim := ClaimOf(w.env, d.attempt, d.token);
    SettledBatchOk(b, jobs, w.env, outcome, claim, now);
    SettleFactsOk(b, jobs, w, d, outcome, now);
  }

  lemma FreshReceipt(b: Batch, id: string, outcome: MemberOutcome, claim: Claim, now: int)
    requires claim.Valid()
    ensures var after, r := SettleBatch(b, id, outcome, claim, now).0, SettleBatch(b, id, outcome, claim, now).1;
            r.Ok? && r.value.claimedNow ==>
              id in after.receipts && after.receipts[id].owner == claim && after.receipts[id].outcome == outcome
  {
  }

  /** The facts of a settlement are those of the receipt it reports. */
  lemma ReportedFacts(b: Batch, jobs: Jobs, w: Worker, d: Sql.Delivery, r: SettleResult, outcome: MemberOutcome)
    requires MemberOk(b, jobs, w.env) && w.env.jobId in b.receipts && r.receipt == Some(b.receipts[w.env.jobId])
    requires outcome == if w.phase.Failing? then MemberFailed else MemberSucceeded
    requires r.state == b.state && (r.claimedNow ==>
               b.receipts[w.env.jobId].owner.attempt == d.attempt && b.receipts[w.env.jobId].outcome == outcome)
    ensures w.phase.Failing? ==> AllOwned(b, jobs, w.env.jobId, AfterFail(w.env, d.recovered, w.phase.cause, r).1)
    ensures !w.phase.Failing? ==> AllOwned(b, jobs, w.env.jobId, AfterSuccess(w.env, d.recovered, d.attempt, r).1)
  {
  }

  /**
   The first settlement of a member defers exactly the facts it makes true: progress, success of a successful member,
   and completion exactly when it completes the batch without cancelling it.
   */
  lemma FirstSettlementDefersItsFacts(
      b: Batch, jobs: Jobs, w: Worker, d: Sql.Delivery, outcome: MemberOutcome, now: int)
    requires BatchOk(b, jobs) && MemberOk(b, jobs, w.env) && !IsDone(b, w.env.jobId)
    requires ClaimOf(w.env, d.attempt, d.token).Valid()
    requires outcome == if w.phase.Failing? then MemberFailed else MemberSucceeded
    ensures var e := SettleEffect(b, w, d, outcome, now);
            && e.commits
            && e.facts == (if outcome == MemberSucceeded then [JobSucceededFact(w.env, d.attempt)] else [])
                          + [BatchFact(BatchProgressed, w.env)]
                          + (if !b.state.completed && e.batch.state.completed && !e.batch.state.cancelled
                             then [BatchFact(BatchCompleted, w.env)] else [])
  {
  }

  lemma SettleFactsOk(b: Batch, jobs: Jobs, w: Worker, d: Sql.Delivery, outcome: MemberOutcome, now: int)
    requires BatchOk(b, jobs) && MemberOk(b, jobs, w.env) && ClaimOf(w.env, d.attempt, d.token).Valid()
    requires outcome == if w.phase.Failing? then MemberFailed else MemberSucceeded
    ensures var e := SettleEffect(b, w, d, outcome, now);
            IsDone(e.batch, w.env.jobId) && AllOwned(e.batch, jobs, w.env.jobId, e.facts)
  {
    var claim := ClaimOf(w.env, d.attempt, d.token);
    var (after, result) := SettleBatch(b, w.env.jobId, outcome, claim, now);
    SettledBatchOk(b, jobs, w.env, outcome, claim, now);
    FreshReceipt(b, w.env.jobId, outcome, claim, now);
    ReportedFacts(after, jobs, w, d, result.value, outcome);
  }

  lemma StartedBatchOk(b: Batch, jobs: Jobs, id: string, now: int)
    requires BatchOk(b, jobs)
    ensures BatchOk(StartMember(b, id, now), jobs) && Grows(b, StartMember(b, id, now))
  {
    PerformKeepsHealth(b, Begin(id, now));
  }

  /** What a point must leave behind. */
  ghost predicate EffectOk(b: Batch, jobs: Jobs, id: string, d: Sql.Delivery, e: Effect) {
    && BatchOk(e.batch, jobs) && Grows(b, e.batch)
    && PhaseOk(e.batch, d, id, e.phase) && AllOwned(e.batch, jobs, id, e.facts)
  }

  lemma MutationOk(b: Batch, jobs: Jobs, w: Worker, d: Sql.Delivery, now: int)
    requires BatchOk(b, jobs) && MemberOk(b, jobs, w.env) && ClaimOf(w.env, d.attempt, d.token).Valid()
    requires w.phase.Starting? || w.phase.Failing? || w.phase.Succeeding?
    ensures Whole(EffectOk(b, jobs, w.env.jobId, d, MutationEffect(b, w, d, now)))
  {
    match w.phase {
      case Starting => StartedBatchOk(b, jobs, w.env.jobId, now);
      case Failing(_) => SettleEffectOk(b, jobs, w, d, MemberFailed, now);
      case Succeeding => SettleEffectOk(b, jobs, w, d, MemberSucceeded, now);
    }
  }

  lemma ReadOk(b: Batch, jobs: Jobs, readable: bool, w: Worker, d: Sql.Delivery, input: Input)
    requires BatchOk(b, jobs) && MemberOk(b, jobs, w.env) && PhaseOk(b, d, w.env.jobId, w.phase)
    requires !w.phase.Starting? && !w.phase.Failing? && !w.phase.Succeeding? && !w.phase.Returned?
    ensures Whole(EffectOk(b, jobs, w.env.jobId, d, PointEffect(b, readable, w, d, input)))
  {
    SameBatchGrows(b);
    if w.phase.CheckReceipt? {
      CheckReceiptOk(b, jobs, readable && !input.storeDown, w.env, d,
                     Provenance(d.token, d.recoveryToken, d.recovered), w.phase.seen, w.phase.plan);
    }
  }

  lemma PointOk(b: Batch, jobs: Jobs, stored: bool, w: Worker, d: Sql.Delivery, input: Input)
    requires BatchOk(b, jobs) && MemberOk(b, jobs, w.env) && !w.phase.Returned?
    requires ClaimOf(w.env, d.attempt, d.token).Valid() && PhaseOk(b, d, w.env.jobId, w.phase)
    ensures Whole(EffectOk(b, jobs, w.env.jobId, d, PointEffect(b, stored, w, d, input)))
  {
    if w.phase.Starting? || w.phase.Failing? || w.phase.Succeeding? {
      SameBatchGrows(b);
      MutationOk(b, jobs, w, d, input.now);
    } else {
      ReadOk(b, jobs, stored, w, d, input);
    }
  }

  // ---------- Steps ----------

  lemma WorkerFacts(s: System, t: string)
    requires Inv(s) && t in s.workers
    ensures WorkerOk(s.batch, s.jobs, s.db, t, s.workers[t]) && BatchOk(s.batch, s.jobs) && Sql.Inv(s.db)
    ensures s.db.deliveries[t].token == t
    ensures ClaimOf(s.workers[t].env, s.db.deliveries[t].attempt, t).Valid()
  {
    assert Unseal(0);
    assert Sql.DeliveryOk(s.db, t);
    Sql.MarkerIsNoToken();
  }

  /** A worker may move to any admissible point and gain any facts its receipt owns. */
  lemma MoveKeeps(s: System, t: string, phase: Phase, facts: seq<Fact>)
    requires Inv(s) && t in s.workers && t in s.db.deliveries
    requires Whole(PhaseOk(s.batch, s.db.deliveries[t], s.workers[t].env.jobId, phase))
    requires Whole(AllOwned(s.batch, s.jobs, s.workers[t].env.jobId, facts))
    ensures Inv(s.(workers := s.workers[t := Worker(s.workers[t].env, s.workers[t].facts + facts, phase)]))
  {
  }

  lemma PointKeeps(s: System, t: string, input: Input)
    requires Inv(s) && t in s.workers && t in s.db.deliveries && !s.workers[t].phase.Returned?
    ensures Inv(PointStep(s, t, input))
  {
    var w, d := s.workers[t], s.db.deliveries[t];
    var e := PointEffect(s.batch, s.stored, w, d, input);
    WorkerFacts(s, t);
    PointOk(s.batch, s.jobs, s.stored, w, d, input);
    var s1 := s.(batch := e.batch);
    BatchInv(s, e.batch);
    var s2 := if e.commits then s1.(db := Sql.Apply(s.db, Sql.Commit(t))) else s1;
    if e.commits {
      QueueInv(s1, Sql.Commit(t));
    }
    PhaseGrows(e.batch, e.batch, d, s2.db.deliveries[t], w.env.jobId, e.phase);
    MoveKeeps(s2, t, e.phase, e.facts);
  }

  lemma DropKeeps(s: System, t: string)
    requires Inv(s)
    ensures Inv(s.(workers := s.workers - {t}))
  {
  }

  lemma PublishKeeps(s: System, t: string)
    requires Inv(s) && t in s.workers && t in s.db.deliveries && Sql.Count(s.db, t) == 1
    ensures Inv(s.(published := s.published + Publications(s.workers[t], t), workers := s.workers - {t}))
  {
  }

  lemma SettleKeeps(s: System, t: string, input: Input, outcome: Outcome, tries: nat)
    requires Inv(s) && t in s.workers && t in s.db.deliveries && s.workers[t].phase == Returned(outcome, tries)
    ensures Inv(SettleStep(s, t, input, outcome, tries))
  {
    WorkerFacts(s, t);
    var settled := s.(db := Sql.Apply(s.db, Sql.Settle(t, outcome, input.now)));
    var restored := s.(db := Sql.Apply(s.db, Sql.Restore(t, input.now)));
    QueueInv(s, Sql.Settle(t, outcome, input.now));
    QueueInv(s, Sql.Restore(t, input.now));
    if tries >= Sql.FINALIZE_RETRY_COUNT {
      DropKeeps(if input.applied then restored else s, t);
    } else if input.applied && input.acknowledged && Sql.Owns(s.db.rows, s.db.deliveries[t]) {
      SettledCount(s.db, t, outcome, input.now);
      PublishKeeps(settled, t);
    } else {
      assert s.workers[t].facts + [] == s.workers[t].facts;
      MoveKeeps(if input.applied then settled else s, t, Returned(outcome, tries + 1), []);
    }
  }

  lemma SettledCount(db: Db, t: string, outcome: Outcome, now: int)
    requires Sql.Inv(db) && t in db.deliveries && Sql.Owns(db.rows, db.deliveries[t])
    ensures Sql.Count(Sql.Apply(db, Sql.Settle(t, outcome, now)), t) == 1
  {
  }

  lemma OfferKeeps(s: System, id: string, now: int)
    requires Inv(s) && Enabled(s, Offer(id, now))
    ensures Inv(Do(s, Offer(id, now)))
  {
    assert Unseal(0);
    var step := RowOf(MemberEnvelope(s.batch.state, id, s.jobs[id]), now);
    var db' := Sql.Apply(s.db, step);
    QueueStepGrows(s.db, step);
    SameBatchGrows(s.batch);
    WorkersGrow(s.batch, s.batch, s.jobs, s.db, db', s.workers);
    PublishedGrow(s.batch, s.batch, s.jobs, s.db, db', s.published);
    OfferPursued(s.batch, s.db, s.accepted, id, MemberEnvelope(s.batch.state, id, s.jobs[id]), now);
  }

  lemma OfferPursued(b: Batch, db: Db, accepted: set<string>, id: string, env: Envelope, now: int)
    requires Sql.Inv(db) && Pursued(b, db, accepted) && env.jobId == id && env.job.options.retry >= 0
    ensures Pursued(b, Sql.Apply(db, RowOf(env, now)), accepted + {id})
  {
    PursuedKept(b, db, RowOf(env, now), accepted);
    assert Queued(Sql.Apply(db, RowOf(env, now)), id, db.nextId);
  }

  lemma ClaimKeeps(s: System, row: nat, token: string, now: int)
    requires Inv(s) && Enabled(s, ClaimRow(row, token, now))
    ensures Inv(Do(s, ClaimRow(row, token, now)))
  {
    var s1 := s.(db := Sql.Apply(s.db, Sql.Claim(row, token, now)));
    var w := Worker(s.db.rows[row].payload, [], Entered);
    assert MemberOk(s.batch, s.jobs, w.env) by { assert Unseal(0); }
    QueueInv(s, Sql.Claim(row, token, now));
    assert WorkerOk(s1.batch, s1.jobs, s1.db, token, w);
    AddWorker(s1, token, w);
  }

  lemma AddWorker(s: System, t: string, w: Worker)
    requires Inv(s) && WorkerOk(s.batch, s.jobs, s.db, t, w)
    ensures Inv(s.(workers := s.workers[t := w]))
  {
  }

  lemma CancelKeeps(s: System, now: int)
    requires Inv(s)
    ensures Inv(s.(batch := CancelBatch(s.batch, now)))
  {
    assert BatchOk(s.batch, s.jobs) by { assert Unseal(0); }
    PerformKeepsHealth(s.batch, Call.Cancel(now));
    BatchInv(s, CancelBatch(s.batch, now));
  }

  lemma StoredIsFree(s: System)
    requires Inv(s)
    ensures Inv(s.(stored := false))
  {
  }

  lemma StepKeepsInv(s: System, a: Action)
    requires Inv(s) && Enabled(s, a)
    ensures Inv(Do(s, a))
  {
    match a {
      case Offer(id, now) => OfferKeeps(s, id, now);
      case ClaimRow(row, token, now) => ClaimKeeps(s, row, token, now);
      case Recover(now, cfg) => QueueInv(s, Sql.RecoverStale(now, cfg));
      case Crash(token) => DropKeeps(s, token);
      case Cancel(now) => CancelKeeps(s, now);
      case Prune => StoredIsFree(s);
      case Work(token, input) =>
        if s.workers[token].phase.Returned? {
          SettleKeeps(s, token, input, s.workers[token].phase.outcome, s.workers[token].phase.tries);
        } else {
          PointKeeps(s, token, input);
        }
    }
  }

  lemma {:induction false} RunKeepsInv(s: System, actions: seq<Action>, end: System)
    requires Inv(s) && IsRun(s, actions, end)
    ensures Inv(end)
    decreases |actions|
  {
    if actions != [] {
      StepKeepsInv(s, actions[0]);
      RunKeepsInv(Do(s, actions[0]), actions[1..], end);
    }
  }

  lemma InitialInv(s: System, record: BatchRecord, now: int)
    requires Initial(s, record, now)
    ensures Inv(s)
  {
    NewBatchHealthy(record, now);
  }

  lemma Reachable(start: System, record: BatchRecord, now: int, actions: seq<Action>, s: System)
    requires Initial(start, record, now) && IsRun(start, actions, s)
    ensures Inv(s)
  {
    InitialInv(start, record, now);
    RunKeepsInv(start, actions, s);
  }

  // ---------- Main results ----------

  /** No member is lost: after any run, every accepted member is settled in its batch or still has an unsettled row. */
  lemma NoLostMember(start: System, record: BatchRecord, now: int, actions: seq<Action>, s: System, id: string)
    requires Initial(start, record, now) && IsRun(start, actions, s) && id in s.accepted
    ensures IsDone(s.batch, id) || exists row :: Queued(s.db, id, row)
  {
    Reachable(start, record, now, actions, s);
    assert Unseal(0);
  }

  /**
   After any run the counters are conserved, at most one receipt owns completion, every published fact is the one its
   member's receipt entitles it to, and any two facts of one kind for one member (for batch_completed: for the whole
   batch) are the same fact.
   */
  lemma PublishedFactsHaveOneOwner(
      start: System, record: BatchRecord, now: int, actions: seq<Action>, s: System, p: Publication, q: Publication)
    requires Initial(start, record, now) && IsRun(start, actions, s) && p in s.published && q in s.published
    ensures Balanced(s.batch) && FactOwned(s.batch, s.jobs, p.memberId, p.fact) && Sql.Count(s.db, p.generation) == 1
    ensures p.fact.kind == q.fact.kind && (p.memberId == q.memberId || p.fact.kind == BatchCompleted) ==>
              p.fact == q.fact
  {
    Reachable(start, record, now, actions, s);
    assert PublishedOk(s.batch, s.jobs, s.db, s.published) && BatchOk(s.batch, s.jobs) by { assert Unseal(0); }
    assert Balanced(s.batch) && Accounted(s.batch) by { assert Unseal(0); }
    if p.fact.kind == q.fact.kind {
      OneFact(s.batch, s.jobs, p.memberId, p.fact, q.memberId, q.fact);
    }
  }

  lemma OneFact(b: Batch, jobs: Jobs, i: string, f: Fact, j: string, g: Fact)
    requires Accounted(b) && FactOwned(b, jobs, i, f) && FactOwned(b, jobs, j, g) && f.kind == g.kind
    ensures i == j || f.kind == BatchCompleted ==> f == g
  {
    if f.kind == BatchCompleted {
      assert i in Terminals(b) && j in Terminals(b);
    }
  }
}
