/**
 When the facts of a settled batch member are published. The first settlement of a member defers its facts with its
 delivery; a recovered delivery that inherits the receipt rebuilds them, except that a failed member's progress is not
 rebuilt. Facts are published by acknowledged settlements of rows, and by nothing else.
 */
module BatchFacts {
  import opened Common
  import opened WorkflowTypes
  import opened Identity
  import opened Recovery
  import opened BatchStore
  import opened QueueFrames
  import opened BatchEngine
  import opened BatchTheorems
  import R = BatchReplay
  import Sql = SqlRows

  type Receipts = map<string, Receipt>

  // ---------- The facts of a member ----------

  function CompletionFacts(env: Envelope, r: Receipt): seq<Fact> {
    if r.aggregateCompleted && !r.aggregateCancelled then [BatchFact(BatchCompleted, env)] else []
  }

  /** The facts the receipt's owner defers when it settles the member. */
  function DeferredFacts(env: Envelope, r: Receipt): seq<Fact> {
    (if r.outcome == MemberSucceeded then [JobSucceededFact(env, r.owner.attempt)] else [])
    + [BatchFact(BatchProgressed, env)] + CompletionFacts(env, r)
  }

  /** The facts a recovered delivery rebuilds from the receipt it inherits. */
  function RebuiltFacts(env: Envelope, r: Receipt): seq<Fact> {
    (if r.outcome == MemberSucceeded
     then [JobSucceededFact(env, r.owner.attempt), BatchFact(BatchProgressed, env)] else [])
    + CompletionFacts(env, r)
  }

  /** Recovery rebuilds what was deferred exactly for successful members; otherwise precisely progress is missing. */
  lemma RebuiltIffSucceeded(env: Envelope, r: Receipt)
    ensures RebuiltFacts(env, r) == DeferredFacts(env, r) <==> r.outcome == MemberSucceeded
    ensures r.outcome != MemberSucceeded ==>
              DeferredFacts(env, r) == [BatchFact(BatchProgressed, env)] + RebuiltFacts(env, r)
  {
  }

  function ProvenanceOf(d: Sql.Delivery): Provenance {
    Provenance(d.token, d.recoveryToken, d.recovered)
  }

  predicate Inherits(r: Receipt, d: Sql.Delivery, env: Envelope) {
    OwnsRecoveredFacts(env, d.attempt, r, ProvenanceOf(d))
  }

  /** The delivery settles its member for the first time. */
  predicate Settles(s: System, t: string, input: Input) {
    && t in s.workers && t in s.db.deliveries && (s.workers[t].phase.Failing? || s.workers[t].phase.Succeeding?)
    && !input.storeDown && s.stored && s.workers[t].env.jobId in s.batch.jobs
    && !IsDone(s.batch, s.workers[t].env.jobId)
  }

  /** A recovered delivery meets its member's stored receipt and finds that it fits the batch it has read. */
  predicate Meets(s: System, t: string, input: Input) {
    && t in s.workers && t in s.db.deliveries && s.workers[t].phase.CheckReceipt?
    && !input.storeDown && s.stored && s.workers[t].env.jobId in s.batch.receipts
    && ShapeOk(s.workers[t].phase.seen, s.batch.receipts[s.workers[t].env.jobId])
  }

  function MemberOutcomeOf(phase: Phase): MemberOutcome {
    if phase.Failing? then MemberFailed else MemberSucceeded
  }

  // ---------- What one step adds ----------

  /** The batch a recovery check has read is well formed and of the current incarnation. */
  predicate SeenOk(b: Batch, phase: Phase) {
    phase.CheckReceipt? ==>
      && RecoverableState(phase.seen)
      && phase.seen.dispatchId == b.state.dispatchId && phase.seen.createdAt == b.state.createdAt
  }

  lemma FirstSettlement(b: Batch, jobs: Jobs, w: Worker, d: Sql.Delivery, now: int)
    requires BatchOk(b, jobs) && MemberOk(b, jobs, w.env) && !IsDone(b, w.env.jobId)
    requires ClaimOf(w.env, d.attempt, d.token).Valid()
    ensures var e := SettleEffect(b, w, d, MemberOutcomeOf(w.phase), now);
            && w.env.jobId in e.batch.receipts
            && e.batch.receipts[w.env.jobId].owner == ClaimOf(w.env, d.attempt, d.token)
            && e.facts == DeferredFacts(w.env, e.batch.receipts[w.env.jobId])
            && e.phase.Returned?
  {
  }

  lemma LaterSettlement(b: Batch, jobs: Jobs, w: Worker, d: Sql.Delivery, now: int)
    requires BatchOk(b, jobs) && MemberOk(b, jobs, w.env) && IsDone(b, w.env.jobId)
    ensures var e := SettleEffect(b, w, d, MemberOutcomeOf(w.phase), now);
            e.facts == [] && e.batch.receipts == b.receipts
  {
  }

  /** What the recovery check of a delivery adds to its facts. */
  function CheckedFacts(b: Batch, w: Worker, d: Sql.Delivery, readable: bool): seq<Fact>
    requires w.phase.CheckReceipt?
  {
    var id := w.env.jobId;
    if readable && id in b.receipts && ShapeOk(w.phase.seen, b.receipts[id]) && Inherits(b.receipts[id], d, w.env)
    then RebuiltFacts(w.env, b.receipts[id]) else []
  }

  /** Meeting the receipt yields what recovery rebuilds when the delivery inherits the owner, and nothing otherwise. */
  lemma MeetingRebuilds(b: Batch, jobs: Jobs, stored: bool, w: Worker, d: Sql.Delivery, input: Input)
    requires BatchOk(b, jobs) && MemberOk(b, jobs, w.env) && w.phase.CheckReceipt? && SeenOk(b, w.phase)
    ensures var e := PointEffect(b, stored, w, d, input);
            && e.batch == b && e.facts == CheckedFacts(b, w, d, stored && !input.storeDown)
            && (e.facts != [] ==> e.phase.Returned?)
  {
    HealthyMember(b, w.env.jobId);
  }

  /** The facts a delivery gains by its own step before its row is settled. */
  function Gained(s: System, t: string, input: Input): seq<Fact>
    requires t in s.workers && t in s.db.deliveries && !s.workers[t].phase.Returned?
  {
    var w, d := s.workers[t], s.db.deliveries[t];
    if Settles(s, t, input) then
      var after := SettleEffect(s.batch, w, d, MemberOutcomeOf(w.phase), input.now).batch;
      if w.env.jobId in after.receipts then DeferredFacts(w.env, after.receipts[w.env.jobId]) else []
    else if w.phase.CheckReceipt? then CheckedFacts(s.batch, w, d, s.stored && !input.storeDown)
    else []
  }

  lemma QuietEffect(b: Batch, stored: bool, w: Worker, d: Sql.Delivery, input: Input)
    requires w.phase.Entered? || w.phase.Execute? || w.phase.CheckState? || w.phase.Starting?
    ensures var e := PointEffect(b, stored, w, d, input); e.facts == [] && e.batch.receipts == b.receipts
  {
  }

  /** The facts a point adds and the receipts it leaves. */
  lemma PointGains(s: System, t: string, input: Input)
    requires Inv(s) && t in s.workers && t in s.db.deliveries && !s.workers[t].phase.Returned?
    requires SeenOk(s.batch, s.workers[t].phase)
    ensures var e := PointEffect(s.batch, s.stored, s.workers[t], s.db.deliveries[t], input);
            && e.facts == Gained(s, t, input) && (e.facts != [] ==> e.phase.Returned?)
            && (!Settles(s, t, input) ==> e.batch.receipts == s.batch.receipts)
  {
    var w, d := s.workers[t], s.db.deliveries[t];
    WorkerFacts(s, t);
    match w.phase {
      case CheckReceipt(_, _) => MeetingRebuilds(s.batch, s.jobs, s.stored, w, d, input);
      case Failing(_) => SettlementGains(s, t, input);
      case Succeeding => SettlementGains(s, t, input);
      case _ => QuietEffect(s.batch, s.stored, w, d, input);
    }
  }

  lemma SettlementGains(s: System, t: string, input: Input)
    requires Inv(s) && t in s.workers && t in s.db.deliveries
    requires s.workers[t].phase.Failing? || s.workers[t].phase.Succeeding?
    ensures var e := PointEffect(s.batch, s.stored, s.workers[t], s.db.deliveries[t], input);
            && e.facts == Gained(s, t, input) && (e.facts != [] ==> e.phase.Returned?)
            && (!Settles(s, t, input) ==> e.batch.receipts == s.batch.receipts)
  {
    var w, d := s.workers[t], s.db.deliveries[t];
    WorkerFacts(s, t);
    if Settles(s, t, input) {
      FirstSettlement(s.batch, s.jobs, w, d, input.now);
    } else if IsDone(s.batch, w.env.jobId) {
      LaterSettlement(s.batch, s.jobs, w, d, input.now);
    }
  }

  // ---------- The second invariant ----------

  /** The owner of a receipt is a claimed generation. */
  predicate Claimed(db: Db, owner: Claim) {
    owner.deliveryId in db.deliveries && db.deliveries[owner.deliveryId].attempt == owner.attempt
  }

  /** A delivery holds nothing, what it deferred as the owner, or what it rebuilt as the owner's heir. */
  predicate FactsExact(receipts: Receipts, d: Sql.Delivery, w: Worker) {
    var id := w.env.jobId;
    && (w.facts == [] || (id in receipts && w.phase.Returned? && w.facts == HeldFacts(receipts[id], d, w.env)))
    && (id in receipts && receipts[id].owner.deliveryId == d.token ==> w.facts != [])
  }

  /** What a delivery is entitled to hold. */
  function HeldFacts(r: Receipt, d: Sql.Delivery, env: Envelope): seq<Fact> {
    if r.owner.deliveryId == d.token then DeferredFacts(env, r)
    else if Inherits(r, d, env) then RebuiltFacts(env, r)
    else []
  }

  predicate Exact(s: System) {
    && (forall id :: id in s.batch.receipts ==> Claimed(s.db, s.batch.receipts[id].owner))
    && forall t :: t in s.workers ==>
         && t in s.db.deliveries && FactsExact(s.batch.receipts, s.db.deliveries[t], s.workers[t])
         && SeenOk(s.batch, s.workers[t].phase)
  }

  lemma SettlingWrites(s: System, t: string, input: Input)
    requires Inv(s) && Settles(s, t, input)
    ensures var id, e := s.workers[t].env.jobId,
                         PointEffect(s.batch, s.stored, s.workers[t], s.db.deliveries[t], input);
            && id in e.batch.receipts && e.facts == DeferredFacts(s.workers[t].env, e.batch.receipts[id])
            && e.batch.receipts[id].owner == ClaimOf(s.workers[t].env, s.db.deliveries[t].attempt, t)
            && (forall i :: i in e.batch.receipts ==> i in s.batch.receipts || i == id)
  {
    var w, d := s.workers[t], s.db.deliveries[t];
    WorkerFacts(s, t);
    FirstSettlement(s.batch, s.jobs, w, d, input.now);
    OnlyOwnReceipt(s.batch, w, d, MemberOutcomeOf(w.phase), input.now);
  }

  lemma PointBatch(s: System, t: string, input: Input)
    requires t in s.workers && t in s.db.deliveries && !s.workers[t].phase.Returned?
    ensures Do(s, Work(t, input)).batch
            == PointEffect(s.batch, s.stored, s.workers[t], s.db.deliveries[t], input).batch
  {
    R.PointShape(s, t, input);
  }

  /** A new receipt is written by the delivery that settles its member, in its own name. */
  lemma NewReceipt(s: System, a: Action, id: string)
    requires Inv(s) && Exact(s) && Enabled(s, a) && id in Do(s, a).batch.receipts && id !in s.batch.receipts
    ensures a.Work? && Settles(s, a.token, a.input) && s.workers[a.token].env.jobId == id
    ensures Do(s, a).batch.receipts[id].owner
            == ClaimOf(s.workers[a.token].env, s.db.deliveries[a.token].attempt, a.token)
  {
    if a.Work? && !s.workers[a.token].phase.Returned? {
      PointBatch(s, a.token, a.input);
      PointGains(s, a.token, a.input);
      SettlingWrites(s, a.token, a.input);
    } else {
      QuietReceipts(s, a);
    }
  }

  lemma OnlyOwnReceipt(b: Batch, w: Worker, d: Sql.Delivery, outcome: MemberOutcome, now: int)
    ensures forall id :: id in SettleEffect(b, w, d, outcome, now).batch.receipts ==>
              id in b.receipts || id == w.env.jobId
  {
  }

  lemma QuietReceipts(s: System, a: Action)
    requires Enabled(s, a) && !(a.Work? && !s.workers[a.token].phase.Returned?)
    ensures Do(s, a).batch.receipts == s.batch.receipts
  {
  }

  lemma StepKeepsClaimed(s: System, a: Action)
    requires Inv(s) && Exact(s) && Enabled(s, a)
    ensures forall id :: id in Do(s, a).batch.receipts ==> Claimed(Do(s, a).db, Do(s, a).batch.receipts[id].owner)
  {
    R.StepKept(s, a);
    forall id | id in Do(s, a).batch.receipts ensures Claimed(Do(s, a).db, Do(s, a).batch.receipts[id].owner) {
      if id in s.batch.receipts {
        assert Claimed(s.db, s.batch.receipts[id].owner);
      } else {
        NewReceipt(s, a, id);
      }
    }
  }

  /** Growth keeps a bystander's facts exact; a receipt it does not own may appear for its member. */
  lemma FactsGrow(receipts: Receipts, receipts': Receipts, d: Sql.Delivery, e: Sql.Delivery, w: Worker)
    requires forall id :: id in receipts ==> id in receipts' && receipts'[id] == receipts[id]
    requires SameClaim(d, e) && FactsExact(receipts, d, w)
    requires var id := w.env.jobId;
             id in receipts' && id !in receipts ==> receipts'[id].owner.deliveryId != d.token
    ensures FactsExact(receipts', e, w)
  {
  }

  predicate SameIdentity(a: BatchState, b: BatchState) {
    b.batchId == a.batchId && b.dispatchId == a.dispatchId && b.createdAt == a.createdAt
  }

  lemma QuietIdentity(s: System, a: Action)
    requires Enabled(s, a) && !(a.Work? && !s.workers[a.token].phase.Returned?)
    ensures SameIdentity(s.batch.state, Do(s, a).batch.state)
  {
  }

  /** The identity of the batch does not change. */
  lemma BatchIdentity(s: System, a: Action)
    requires Inv(s) && Enabled(s, a)
    ensures Whole(SameIdentity(s.batch.state, Do(s, a).batch.state))
  {
    if a.Work? && !s.workers[a.token].phase.Returned? {
      WorkerFacts(s, a.token);
      PointOk(s.batch, s.jobs, s.stored, s.workers[a.token], s.db.deliveries[a.token], a.input);
      PointBatch(s, a.token, a.input);
    } else {
      QuietIdentity(s, a);
    }
  }

  lemma BystanderExact(s: System, a: Action, t: string)
    requires Inv(s) && Exact(s) && Enabled(s, a) && t in s.workers && t in s.db.deliveries
    requires t in Do(s, a).workers && !(a.Work? && a.token == t)
    ensures t in Do(s, a).db.deliveries && SeenOk(Do(s, a).batch, Do(s, a).workers[t].phase)
    ensures FactsExact(Do(s, a).batch.receipts, Do(s, a).db.deliveries[t], Do(s, a).workers[t])
  {
    R.OthersUnmoved(s, a, t);
    R.StepKept(s, a);
    BatchIdentity(s, a);
    WorkerFacts(s, t);
    var id := s.workers[t].env.jobId;
    if id in Do(s, a).batch.receipts && id !in s.batch.receipts {
      NewReceipt(s, a, id);
    }
    FactsGrow(s.batch.receipts, Do(s, a).batch.receipts, s.db.deliveries[t], Do(s, a).db.deliveries[t], s.workers[t]);
  }

  lemma ClaimExact(s: System, a: Action, t: string)
    requires Inv(s) && Exact(s) && Enabled(s, a) && t !in s.workers && t in Do(s, a).workers
    ensures t in Do(s, a).db.deliveries && SeenOk(Do(s, a).batch, Do(s, a).workers[t].phase)
    ensures FactsExact(Do(s, a).batch.receipts, Do(s, a).db.deliveries[t], Do(s, a).workers[t])
  {
    WorkersComeFrom(s, a, t);
    var id := Do(s, a).workers[t].env.jobId;
    if id in s.batch.receipts {
      assert Claimed(s.db, s.batch.receipts[id].owner);
    }
  }

  lemma WorkersComeFrom(s: System, a: Action, t: string)
    requires Enabled(s, a) && t in Do(s, a).workers && t !in s.workers
    ensures a.ClaimRow? && a.token == t
  {
  }

  lemma SeenStays(b: Batch, jobs: Jobs, stored: bool, w: Worker, d: Sql.Delivery, input: Input)
    requires BatchOk(b, jobs) && !w.phase.Returned?
    ensures var e := PointEffect(b, stored, w, d, input); e.phase.CheckReceipt? ==> e.batch == b && SeenOk(b, e.phase)
  {
  }

  lemma PointWorker(s: System, t: string, input: Input)
    requires t in s.workers && t in s.db.deliveries && !s.workers[t].phase.Returned?
    ensures var s', e := Do(s, Work(t, input)),
                         PointEffect(s.batch, s.stored, s.workers[t], s.db.deliveries[t], input);
            && t in s'.workers && s'.workers[t] == Worker(s.workers[t].env, s.workers[t].facts + e.facts, e.phase)
  {
  }

  lemma PointExact(s: System, t: string, input: Input, b: Batch, w': Worker)
    requires Inv(s) && Exact(s) && t in s.workers && t in s.db.deliveries && !s.workers[t].phase.Returned?
    requires var e := PointEffect(s.batch, s.stored, s.workers[t], s.db.deliveries[t], input);
             b == e.batch && w' == Worker(s.workers[t].env, s.workers[t].facts + e.facts, e.phase)
    ensures FactsExact(b.receipts, s.db.deliveries[t], w') && SeenOk(b, w'.phase)
  {
    var w, d := s.workers[t], s.db.deliveries[t];
    WorkerFacts(s, t);
    PointGains(s, t, input);
    SeenStays(s.batch, s.jobs, s.stored, w, d, input);
    assert FactsExact(s.batch.receipts, d, w);
    if Settles(s, t, input) {
      SettlingWrites(s, t, input);
    }
  }

  lemma SettleWorker(s: System, t: string, input: Input)
    requires t in s.workers && t in s.db.deliveries && s.workers[t].phase.Returned?
    ensures var s' := Do(s, Work(t, input));
            && s'.batch == s.batch
            && (t in s'.workers ==> s'.workers[t].phase.Returned? && s'.workers[t].facts == s.workers[t].facts
                                    && s'.workers[t].env == s.workers[t].env)
  {
  }

  lemma OwnExact(s: System, t: string, input: Input)
    requires Inv(s) && Exact(s) && Enabled(s, Work(t, input)) && t in Do(s, Work(t, input)).workers
    ensures var s' := Do(s, Work(t, input));
            && t in s'.db.deliveries && FactsExact(s'.batch.receipts, s'.db.deliveries[t], s'.workers[t])
            && SeenOk(s'.batch, s'.workers[t].phase)
  {
    var s' := Do(s, Work(t, input));
    R.StepKept(s, Work(t, input));
    if s.workers[t].phase.Returned? {
      SettleWorker(s, t, input);
      FactsGrow(s.batch.receipts, s.batch.receipts, s.db.deliveries[t], s'.db.deliveries[t],
                s.workers[t].(phase := s'.workers[t].phase));
    } else {
      PointBatch(s, t, input);
      PointWorker(s, t, input);
      PointExact(s, t, input, s'.batch, s'.workers[t]);
      FactsGrow(s'.batch.receipts, s'.batch.receipts, s.db.deliveries[t], s'.db.deliveries[t], s'.workers[t]);
    }
  }

  lemma StepKeepsExact(s: System, a: Action)
    requires Inv(s) && Exact(s) && Enabled(s, a)
    ensures Exact(Do(s, a))
  {
    StepKeepsClaimed(s, a);
    forall t | t in Do(s, a).workers
      ensures t in Do(s, a).db.deliveries && SeenOk(Do(s, a).batch, Do(s, a).workers[t].phase)
      ensures FactsExact(Do(s, a).batch.receipts, Do(s, a).db.deliveries[t], Do(s, a).workers[t])
    {
      if t !in s.workers {
        ClaimExact(s, a, t);
      } else if a.Work? && a.token == t {
        OwnExact(s, t, a.input);
      } else {
        BystanderExact(s, a, t);
      }
    }
  }

  // ---------- Lineage ----------

  /** For a generation that owns its row, inheriting the receipt is exactly the row's lineage naming its owner. */
  lemma InheritsIffLineage(s: System, t: string)
    requires Inv(s) && Exact(s) && t in s.workers && t in s.db.deliveries
    requires s.workers[t].env.jobId in s.batch.receipts && Sql.Owns(s.db.rows, s.db.deliveries[t])
    ensures var r := s.batch.receipts[s.workers[t].env.jobId];
            Inherits(r, s.db.deliveries[t], s.workers[t].env) <==>
              Sql.Lineage(s.db, s.db.deliveries[t].id) == Some(r.owner.deliveryId)
  {
    var r := s.batch.receipts[s.workers[t].env.jobId];
    WorkerFacts(s, t);
    assert Claimed(s.db, r.owner) && OwnerOk(r.owner, s.batch.state.dispatchId, s.jobs, s.workers[t].env.jobId);
    assert Sql.DeliveryOk(s.db, t) && Sql.DeliveryOk(s.db, r.owner.deliveryId);
    Sql.MarkerIsNoToken();
  }

  // ---------- Publication ----------

  /** A settlement statement is applied, and reported so, while the generation owns its row. */
  predicate Acknowledges(s: System, a: Action, t: string) {
    && a.Work? && a.token == t && t in s.workers && t in s.db.deliveries && s.workers[t].phase.Returned?
    && s.workers[t].phase.tries < Sql.FINALIZE_RETRY_COUNT && a.input.applied && a.input.acknowledged
    && Sql.Owns(s.db.rows, s.db.deliveries[t])
  }

  /** Facts are published by acknowledged settlements and by nothing else. */
  lemma StepPublishes(s: System, a: Action)
    requires Enabled(s, a)
    ensures Do(s, a).published
            == if a.Work? && Acknowledges(s, a, a.token)
               then s.published + Publications(s.workers[a.token], a.token) else s.published
  {
  }

  lemma PublishedFact(w: Worker, t: string, id: string, fact: Fact)
    ensures Publication(id, fact, t) in Publications(w, t) <==> id == w.env.jobId && fact in w.facts
  {
  }

  predicate Meeting(s: System, a: Action, t: string) {
    a.Work? && a.token == t && Meets(s, t, a.input)
  }

  /**
   The acknowledged settlement that announces a fact of a member: its generation owns the member's receipt and deferred
   the fact, or it has met the receipt, its row's lineage is still the receipt's owner, and recovery rebuilds the fact.
   */
  predicate Announces(s: System, a: Action, t: string, id: string, fact: Fact, met: bool) {
    && Acknowledges(s, a, t) && s.workers[t].env.jobId == id && id in s.batch.receipts
    && var r := s.batch.receipts[id];
       || (r.owner.deliveryId == t && fact in DeferredFacts(s.workers[t].env, r))
       || (&& met && Sql.Lineage(s.db, s.db.deliveries[t].id) == Some(r.owner.deliveryId)
           && fact in RebuiltFacts(s.workers[t].env, r))
  }

  /** Generation t announces the fact somewhere in the run; `met` says whether it has met the receipt before. */
  ghost predicate Announced(s: System, actions: seq<Action>, t: string, id: string, fact: Fact, met: bool)
    decreases |actions|
  {
    && actions != [] && Enabled(s, actions[0])
    && (|| Announces(s, actions[0], t, id, fact, met)
        || Announced(Do(s, actions[0]), actions[1..], t, id, fact, met || Meeting(s, actions[0], t)))
  }

  /** A delivery that has met the receipt it inherits holds what recovery rebuilds; without meeting it holds nothing. */
  predicate Keeps(receipts: Receipts, d: Sql.Delivery, w: Worker, met: bool) {
    var id := w.env.jobId;
    && (met ==> id in receipts && w.phase.Returned? && w.facts == HeldFacts(receipts[id], d, w.env))
    && (w.facts != [] && !met ==> id in receipts && receipts[id].owner.deliveryId == d.token)
  }

  predicate Tracks(s: System, t: string, met: bool) {
    && (met ==> t in s.db.deliveries)
    && (t in s.workers && t in s.db.deliveries ==> Keeps(s.batch.receipts, s.db.deliveries[t], s.workers[t], met))
  }

  lemma GrowthKeeps(receipts: Receipts, receipts': Receipts, d: Sql.Delivery, e: Sql.Delivery, w: Worker, met: bool)
    requires forall id :: id in receipts ==> id in receipts' && receipts'[id] == receipts[id]
    requires SameClaim(d, e) && Keeps(receipts, d, w, met)
    ensures Keeps(receipts', e, w, met)
  {
  }

  lemma PointTracks(s: System, t: string, input: Input, met: bool, receipts: Receipts, w': Worker)
    requires Inv(s) && Exact(s) && t in s.workers && t in s.db.deliveries && !s.workers[t].phase.Returned?
    requires Keeps(s.batch.receipts, s.db.deliveries[t], s.workers[t], met)
    requires var e := PointEffect(s.batch, s.stored, s.workers[t], s.db.deliveries[t], input);
             receipts == e.batch.receipts && w' == Worker(s.workers[t].env, s.workers[t].facts + e.facts, e.phase)
    ensures Keeps(receipts, s.db.deliveries[t], w', met || Meets(s, t, input))
  {
    var w, d := s.workers[t], s.db.deliveries[t];
    WorkerFacts(s, t);
    PointGains(s, t, input);
    assert FactsExact(s.batch.receipts, d, w);
    if Settles(s, t, input) {
      SettlingWrites(s, t, input);
    } else if Meets(s, t, input) {
      MetReturns(s.batch, s.jobs, s.stored, w, d, input);
    }
  }

  lemma MetReturns(b: Batch, jobs: Jobs, stored: bool, w: Worker, d: Sql.Delivery, input: Input)
    requires BatchOk(b, jobs) && MemberOk(b, jobs, w.env) && w.phase.CheckReceipt? && SeenOk(b, w.phase)
    requires w.env.jobId in b.receipts
    ensures PointEffect(b, stored, w, d, input).phase.Returned?
  {
    HealthyMember(b, w.env.jobId);
  }

  lemma SettleTracks(s: System, t: string, input: Input, met: bool, s': System)
    requires t in s.workers && t in s.db.deliveries && s.workers[t].phase.Returned? && Tracks(s, t, met)
    requires s' == Do(s, Work(t, input)) && Whole(R.Kept(s, s')) && t in s'.workers
    ensures Whole(Keeps(s'.batch.receipts, s'.db.deliveries[t], s'.workers[t], met))
  {
    SettleWorker(s, t, input);
    GrowthKeeps(s.batch.receipts, s'.batch.receipts, s.db.deliveries[t], s'.db.deliveries[t],
                s.workers[t].(phase := s'.workers[t].phase), met);
  }

  lemma StepFromPoint(s: System, t: string, input: Input, met: bool, s': System)
    requires Inv(s) && Exact(s) && t in s.workers && t in s.db.deliveries && !s.workers[t].phase.Returned?
    requires Keeps(s.batch.receipts, s.db.deliveries[t], s.workers[t], met)
    requires s' == Do(s, Work(t, input)) && Whole(R.Kept(s, s')) && t in s'.workers
    ensures Whole(Keeps(s'.batch.receipts, s'.db.deliveries[t], s'.workers[t], met || Meets(s, t, input)))
  {
    PointBatch(s, t, input);
    PointWorker(s, t, input);
    PointTracks(s, t, input, met, s'.batch.receipts, s'.workers[t]);
    GrowthKeeps(s'.batch.receipts, s'.batch.receipts, s.db.deliveries[t], s'.db.deliveries[t], s'.workers[t],
                met || Meets(s, t, input));
  }

  lemma OwnTracks(s: System, t: string, input: Input, met: bool)
    requires Inv(s) && Exact(s) && Tracks(s, t, met) && Enabled(s, Work(t, input))
    requires t in Do(s, Work(t, input)).workers
    ensures Whole(Tracks(Do(s, Work(t, input)), t, met || Meets(s, t, input)))
  {
    R.StepKept(s, Work(t, input));
    if s.workers[t].phase.Returned? {
      SettleTracks(s, t, input, met, Do(s, Work(t, input)));
    } else {
      StepFromPoint(s, t, input, met, Do(s, Work(t, input)));
    }
  }

  lemma StepTracks(s: System, a: Action, t: string, met: bool)
    requires Inv(s) && Exact(s) && Tracks(s, t, met) && Enabled(s, a)
    ensures Tracks(Do(s, a), t, met || Meeting(s, a, t))
  {
    R.StepKept(s, a);
    if t in Do(s, a).workers {
      if t !in s.workers {
        WorkersComeFrom(s, a, t);
      } else if a.Work? && a.token == t {
        OwnTracks(s, t, a.input, met);
      } else {
        WorkerFacts(s, t);
        R.OthersUnmoved(s, a, t);
        GrowthKeeps(s.batch.receipts, Do(s, a).batch.receipts, s.db.deliveries[t], Do(s, a).db.deliveries[t],
                    s.workers[t], met);
      }
    }
  }

  lemma RebuiltWasDeferred(env: Envelope, r: Receipt, fact: Fact)
    requires fact in RebuiltFacts(env, r)
    ensures fact in DeferredFacts(env, r)
  {
  }

  /** An acknowledged settlement holds exactly the facts it announces. */
  lemma AcknowledgementPublishes(s: System, a: Action, t: string, fact: Fact, met: bool)
    requires Inv(s) && Exact(s) && Tracks(s, t, met) && Acknowledges(s, a, t)
    ensures fact in s.workers[t].facts <==> Announces(s, a, t, s.workers[t].env.jobId, fact, met)
  {
    var w, d, id := s.workers[t], s.db.deliveries[t], s.workers[t].env.jobId;
    WorkerFacts(s, t);
    assert FactsExact(s.batch.receipts, d, w);
    if id in s.batch.receipts {
      InheritsIffLineage(s, t);
      if fact in RebuiltFacts(w.env, s.batch.receipts[id]) {
        RebuiltWasDeferred(w.env, s.batch.receipts[id], fact);
      }
    }
  }

  /** One step publishes a fact exactly when it announces it. */
  lemma StepAnnounces(s: System, a: Action, t: string, id: string, fact: Fact, met: bool)
    requires Inv(s) && Exact(s) && Tracks(s, t, met) && Enabled(s, a)
    ensures Publication(id, fact, t) in Do(s, a).published <==>
              Publication(id, fact, t) in s.published || Announces(s, a, t, id, fact, met)
  {
    StepPublishes(s, a);
    if a.Work? {
      PublishedFact(s.workers[a.token], a.token, id, fact);
    }
    if Acknowledges(s, a, t) {
      AcknowledgementPublishes(s, a, t, fact, met);
    }
  }

  lemma {:induction false} PublishedIffAnnounced(
      s: System, actions: seq<Action>, end: System, t: string, id: string, fact: Fact, met: bool)
    requires Inv(s) && Exact(s) && Tracks(s, t, met) && IsRun(s, actions, end)
    ensures Publication(id, fact, t) in end.published <==>
              Publication(id, fact, t) in s.published || Announced(s, actions, t, id, fact, met)
    decreases |actions|
  {
    if actions != [] {
      var a := actions[0];
      StepKeepsInv(s, a);
      StepKeepsExact(s, a);
      StepTracks(s, a, t, met);
      StepAnnounces(s, a, t, id, fact, met);
      PublishedIffAnnounced(Do(s, a), actions[1..], end, t, id, fact, met || Meeting(s, a, t));
    }
  }

  lemma {:induction false} RunKeepsExact(s: System, actions: seq<Action>, end: System)
    requires Inv(s) && Exact(s) && IsRun(s, actions, end)
    ensures Inv(end) && Exact(end)
    decreases |actions|
  {
    if actions != [] {
      StepKeepsInv(s, actions[0]);
      StepKeepsExact(s, actions[0]);
      RunKeepsExact(Do(s, actions[0]), actions[1..], end);
    }
  }

  // ---------- Main results ----------

  /**
   Exactly when a fact of a member is published. After any run, a generation has published a fact of a member if and
   only if, somewhere in the run, its settlement was applied and acknowledged while it owned its row and it was the
   owner of the member's receipt and the fact one the owner defers, or it had met the receipt, its row's lineage was
   still the owner, and the fact is one recovery rebuilds.
   */
  lemma FactsPublishedExactly(
      start: System, record: BatchRecord, now: int, actions: seq<Action>, s: System, t: string, id: string, fact: Fact)
    requires Initial(start, record, now) && IsRun(start, actions, s)
    ensures Publication(id, fact, t) in s.published <==> Announced(start, actions, t, id, fact, false)
  {
    InitialInv(start, record, now);
    PublishedIffAnnounced(start, actions, s, t, id, fact, false);
  }

  /**
   A recovered delivery of a reachable batch that meets the receipt it inherits rebuilds exactly what the owner deferred
   if and only if the member succeeded; a failed member's progress is not rebuilt.
   */
  lemma RecoveryRebuildsSuccesses(
      start: System, record: BatchRecord, now: int, actions: seq<Action>, s: System, t: string, input: Input)
    requires Initial(start, record, now) && IsRun(start, actions, s) && Meets(s, t, input)
    requires Inherits(s.batch.receipts[s.workers[t].env.jobId], s.db.deliveries[t], s.workers[t].env)
    ensures var w, r := s.workers[t], s.batch.receipts[s.workers[t].env.jobId];
            var rebuilt := PointEffect(s.batch, s.stored, w, s.db.deliveries[t], input).facts;
            && rebuilt == RebuiltFacts(w.env, r)
            && (rebuilt == DeferredFacts(w.env, r) <==> r.outcome == MemberSucceeded)
            && (r.outcome == MemberFailed ==> DeferredFacts(w.env, r) == [BatchFact(BatchProgressed, w.env)] + rebuilt)
  {
    InitialInv(start, record, now);
    RunKeepsExact(start, actions, s);
    WorkerFacts(s, t);
    var w, r := s.workers[t], s.batch.receipts[s.workers[t].env.jobId];
    MeetingRebuilds(s.batch, s.jobs, s.stored, w, s.db.deliveries[t], input);
    RebuiltIffSucceeded(w.env, r);
  }
}
