/**
 The invariant of chains over SQL rows: deliveries never run ahead of the chain, receipts describe exactly what the
 chain decided, and every fact belongs to the receipt owner of its node. It is stated on the parts of a system state,
 together with the growth relations under which each part is kept.
 */
module ChainInvariant {
  import opened Common
  import opened WorkflowTypes
  import opened Identity
  import opened ChainStore
  import opened Recovery
  import opened ChainEngine
  import opened QueueFrames
  import Sql = SqlRows

  type Chains = map<string, ChainState>
  type Receipts = map<ReceiptKey, Receipt>

  // ---------- Chains and deliveries ----------

  /** The history holds the states the store produces, and agrees with the store on every chain still stored. */
  predicate LedgerOk(chains: Chains, l: Chains) {
    && (forall c :: c in l ==> Sound(l[c]) && l[c].chainId == c && l[c].dispatchId != "")
    && (forall c :: c in chains ==> c in l && chains[c] == l[c])
  }

  /** A delivery names the node at one index of a chain, with that chain's dispatch and that node's job. */
  predicate Names(st: ChainState, env: Envelope, index: nat) {
    && env.chainId == st.chainId && env.batchId == "" && env.dispatchId == st.dispatchId
    && env.dispatchId != "" && env.jobId != ""
    && Position(st.nodes, env.nodeId) == Some(index)
    && index < |st.nodes| && st.nodes[index].job == env.job
  }

  predicate Named(l: Chains, env: Envelope) {
    && env.chainId in l
    && Position(l[env.chainId].nodes, env.nodeId).Some?
    && Names(l[env.chainId], env, Position(l[env.chainId].nodes, env.nodeId).value)
  }

  function IndexOf(l: Chains, env: Envelope): nat
    requires Named(l, env)
  {
    Position(l[env.chainId].nodes, env.nodeId).value
  }

  /** Chain order: no delivery names a node beyond the current one. */
  predicate Reached(l: Chains, env: Envelope) {
    Named(l, env) && IndexOf(l, env) <= l[env.chainId].nextIndex
  }

  predicate RowsReached(l: Chains, rows: map<nat, Sql.Row<Envelope>>) {
    forall id :: id in rows ==> Reached(l, rows[id].payload)
  }

  // ---------- Workers ----------

  /** The node's outcome is decided: it committed, or its chain is terminal. */
  predicate Resolved(st: ChainState, index: nat) {
    index < st.nextIndex || !Live(st)
  }

  /** A delivery may finish conclusively only when its node is resolved. */
  predicate PlanOk(st: ChainState, index: nat, d: Sql.Delivery, plan: Plan) {
    match plan
    case RunHandler => true
    case Finish(outcome) =>
      && (Conclusive(d, outcome) ==> Resolved(st, index))
      && (outcome.Errored? && outcome.failure.uncommitted ==> index < st.nextIndex)
    case TrySuccess(next) => PlanOk(st, index, d, next)
  }

  predicate NodeReached(st: ChainState, node: ChainNode) {
    exists j :: 0 <= j <= st.nextIndex && j < |st.nodes| && st.nodes[j] == node
  }

  predicate PhaseOk(st: ChainState, index: nat, d: Sql.Delivery, phase: Phase) {
    match phase
    case CheckFailure(plan) =>
      PlanOk(st, index, d, plan) && !plan.RunHandler? && (plan.TrySuccess? || (st.failed && index == st.nextIndex))
    case FailureReceipt(seen, plan) =>
      Extends(seen, st) && seen.failed && seen.nextIndex == index && PlanOk(st, index, d, plan)
    case CheckSuccess(plan) => PlanOk(st, index, d, plan)
    case SuccessReceipt(seen, plan) => Extends(seen, st) && Sound(seen) && index < seen.nextIndex
    case Failing(cause) => !cause.uncommitted
    case Dispatching(node) => NodeReached(st, node) && index < st.nextIndex
    case Returned(outcome, _) => Conclusive(d, outcome) ==> Resolved(st, index)
    case _ => true
  }

  predicate WorkerOk(l: Chains, db: Db, t: string, w: Worker) {
    && t in db.deliveries
    && Reached(l, w.env)
    && PhaseOk(l[w.env.chainId], IndexOf(l, w.env), db.deliveries[t], w.phase)
    && (db.deliveries[t].id in db.rows ==> db.rows[db.deliveries[t].id].payload == w.env)
  }

  predicate WorkersOk(l: Chains, db: Db, workers: map<string, Worker>) {
    forall t :: t in workers ==> WorkerOk(l, db, t, workers[t])
  }

  // ---------- Receipts ----------

  /** What a receipt's outcome says about its node. */
  predicate OutcomeOk(st: ChainState, index: nat, r: Receipt) {
    && !r.aggregateCancelled
    && match r.outcome
       case MemberSucceeded => index < st.nextIndex && r.aggregateCompleted == (index == |st.nodes| - 1)
       case MemberFailed => st.failed && index == st.nextIndex && !r.aggregateCompleted
       case MemberOther(_) => false
  }

  /** The receipt recorded for a node describes exactly what its chain decided about that node. */
  predicate OwnerOk(st: ChainState, key: ReceiptKey, r: Receipt) {
    && r.kind == ChainKind && r.workflowId == key.workflowId && r.memberId == key.memberId
    && r.workflowDispatchId == st.dispatchId && r.workflowCreatedAt == st.createdAt
    && r.Supported() && r.owner.Valid() && r.owner.dispatchId == st.dispatchId
    && Position(st.nodes, key.memberId).Some?
    && var index := Position(st.nodes, key.memberId).value;
       r.owner.jobFingerprint == Fingerprint(st.nodes[index].job) && OutcomeOk(st, index, r)
  }

  predicate OwnersTruthful(l: Chains, owners: Receipts) {
    forall k :: k in owners ==> k.kind == ChainKind && k.workflowId in l && OwnerOk(l[k.workflowId], k, owners[k])
  }

  /** The stored receipts are the first receipts of the chains still stored. */
  predicate ReceiptsOwned(chains: Chains, receipts: Receipts, owners: Receipts) {
    && (forall k :: k in receipts ==> k in owners && receipts[k] == owners[k])
    && (forall k :: k in owners && k.workflowId in chains ==> k in receipts)
  }

  /** Every committed node has its receipt owner. */
  predicate CommitsOwned(l: Chains, owners: Receipts) {
    forall c, i :: c in l && 0 <= i < l[c].nextIndex && i < |l[c].nodes| ==>
      ReceiptKey(ChainKind, c, l[c].nodes[i].nodeId) in owners
  }

  predicate StoreOk(chains: Chains, receipts: Receipts, l: Chains, owners: Receipts) {
    && LedgerOk(chains, l) && OwnersTruthful(l, owners) && ReceiptsOwned(chains, receipts, owners)
    && CommitsOwned(l, owners)
  }

  // ---------- Facts ----------

  /** The delivery that owns a node's outcome, rebuilt from the receipt. */
  function OwnerEnvelope(st: ChainState, key: ReceiptKey, r: Receipt): Envelope
    requires Position(st.nodes, key.memberId).Some?
  {
    Envelope(r.owner.dispatchId, r.owner.jobId, key.workflowId, "", key.memberId,
             st.nodes[Position(st.nodes, key.memberId).value].job)
  }

  /** The only positive facts a node may have; their identities are a function of the receipt owner. */
  predicate OwnerFact(st: ChainState, key: ReceiptKey, r: Receipt, fact: Fact)
    requires Position(st.nodes, key.memberId).Some?
  {
    var env := OwnerEnvelope(st, key, r);
    || fact == JobSucceededFact(env, r.owner.attempt)
    || fact == ChainFact(if r.aggregateCompleted then ChainCompleted else ChainAdvanced, env)
  }

  predicate FactOwned(l: Chains, owners: Receipts, key: ReceiptKey, fact: Fact) {
    && key in owners && owners[key].outcome == MemberSucceeded
    && key.workflowId in l && Position(l[key.workflowId].nodes, key.memberId).Some?
    && OwnerFact(l[key.workflowId], key, owners[key], fact)
  }

  predicate AllOwned(l: Chains, owners: Receipts, key: ReceiptKey, facts: seq<Fact>) {
    forall i :: 0 <= i < |facts| ==> FactOwned(l, owners, key, facts[i])
  }

  predicate WorkerFactsOk(l: Chains, owners: Receipts, workers: map<string, Worker>) {
    forall t :: t in workers ==> AllOwned(l, owners, KeyOf(workers[t].env), workers[t].facts)
  }

  /** A published fact is owned by its node's receipt and was published by a generation that settled its row. */
  predicate PublicationOk(l: Chains, owners: Receipts, db: Db, p: Publication) {
    && FactOwned(l, owners, ReceiptKey(ChainKind, p.chainId, p.nodeId), p.fact)
    && p.generation in db.deliveries && Sql.Count(db, p.generation) == 1
  }

  predicate PublishedOk(l: Chains, owners: Receipts, db: Db, published: set<Publication>) {
    forall p :: p in published ==> PublicationOk(l, owners, db, p)
  }

  predicate Parts(s: System) {
    && Sql.Inv(s.db)
    && StoreOk(s.chains, s.receipts, s.ledger, s.owners)
    && RowsReached(s.ledger, s.db.rows)
    && WorkersOk(s.ledger, s.db, s.workers)
    && WorkerFactsOk(s.ledger, s.owners, s.workers)
    && PublishedOk(s.ledger, s.owners, s.db, s.published)
  }

  /** The invariant, sealed so that a proof sees the parts of a state only where it asks for them. */
  ghost predicate Inv(s: System) {
    forall k :: Unseal(k) ==> Parts(s)
  }

  // ---------- Growth ----------

  predicate LedgerGrows(l: Chains, m: Chains) {
    forall c :: c in l ==> c in m && Extends(l[c], m[c])
  }

  predicate OwnersGrow(a: Receipts, b: Receipts) {
    forall k :: k in a ==> k in b && b[k] == a[k]
  }

  lemma GrowthKeepsReached(l: Chains, m: Chains, env: Envelope)
    requires LedgerGrows(l, m) && Reached(l, env)
    ensures Reached(m, env) && IndexOf(m, env) == IndexOf(l, env)
  {
  }

  lemma {:induction false} GrowthKeepsPlan(
      a: ChainState, b: ChainState, index: nat, d: Sql.Delivery, e: Sql.Delivery, plan: Plan)
    requires Extends(a, b) && PlanOk(a, index, d, plan) && SameClaim(d, e)
    ensures PlanOk(b, index, e, plan)
  {
    if plan.TrySuccess? {
      GrowthKeepsPlan(a, b, index, d, e, plan.next);
    }
  }

  lemma GrowthKeepsPhase(a: ChainState, b: ChainState, index: nat, d: Sql.Delivery, e: Sql.Delivery, phase: Phase)
    requires Extends(a, b) && PhaseOk(a, index, d, phase) && SameClaim(d, e)
    ensures PhaseOk(b, index, e, phase)
  {
    match phase
    case CheckFailure(plan) => GrowthKeepsPlan(a, b, index, d, e, plan);
    case FailureReceipt(_, plan) => GrowthKeepsPlan(a, b, index, d, e, plan);
    case CheckSuccess(plan) => GrowthKeepsPlan(a, b, index, d, e, plan);
    case _ =>
  }

  lemma GrowthKeepsRows(l: Chains, m: Chains, a: Db, b: Db)
    requires LedgerGrows(l, m) && DbGrows(a, b) && RowsReached(l, a.rows)
    requires forall id :: id in b.rows && id >= a.nextId ==> Reached(m, b.rows[id].payload)
    ensures RowsReached(m, b.rows)
  {
  }

  lemma GrowthKeepsWorker(l: Chains, m: Chains, a: Db, b: Db, t: string, w: Worker)
    requires LedgerGrows(l, m) && DbGrows(a, b) && Sql.DeliveriesOk(a) && WorkerOk(l, a, t, w)
    ensures WorkerOk(m, b, t, w)
  {
    assert Sql.DeliveryOk(a, t);
    GrowthKeepsReached(l, m, w.env);
    GrowthKeepsPhase(l[w.env.chainId], m[w.env.chainId], IndexOf(l, w.env), a.deliveries[t], b.deliveries[t], w.phase);
  }

  lemma GrowthKeepsPublished(
      l: Chains, m: Chains, o: Receipts, o': Receipts, a: Db, b: Db, published: set<Publication>)
    requires LedgerGrows(l, m) && OwnersGrow(o, o') && DbGrows(a, b) && Sql.SettledOnce(b)
    requires PublishedOk(l, o, a, published)
    ensures PublishedOk(m, o', b, published)
  {
  }

  lemma LedgerReflexive(l: Chains)
    ensures LedgerGrows(l, l)
  {
  }
}
