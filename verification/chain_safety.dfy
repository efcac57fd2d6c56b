/**
 Every action of the system keeps the chain invariant, whatever leases overlap, replies are lost or workers vanish.
 */
module ChainSafety {
  import opened Common
  import opened Attempts
  import opened WorkflowTypes
  import opened Identity
  import opened ChainStore
  import opened Recovery
  import opened ChainEngine
  import opened ChainInvariant
  import opened QueueFrames
  import Sql = SqlRows

  // ---------- Points a worker moves to ----------

  /** The chain a worker is about, seen as the store would return it. */
  predicate View(chains: Chains, st: ChainState, env: Envelope, index: nat) {
    && Sound(st) && Names(st, env, index) && index <= st.nextIndex
    && (env.chainId in chains ==> chains[env.chainId] == st)
  }

  lemma CheckFailurePhase(chains: Chains, st: ChainState, env: Envelope, index: nat, d: Sql.Delivery, plan: Plan)
    requires View(chains, st, env, index) && PlanOk(st, index, d, plan)
    ensures PhaseOk(st, index, d, AfterCheckFailure(chains, env, plan))
  {
  }

  lemma FailureReceiptPhase(
      chains: Chains, receipts: Receipts, st: ChainState, env: Envelope, index: nat, d: Sql.Delivery,
      seen: ChainState, plan: Plan)
    requires PhaseOk(st, index, d, FailureReceipt(seen, plan))
    ensures PhaseOk(st, index, d, AfterFailureReceipt(chains, receipts, env, seen, plan))
  {
  }

  lemma CheckSuccessPhase(chains: Chains, st: ChainState, env: Envelope, index: nat, d: Sql.Delivery, plan: Plan)
    requires View(chains, st, env, index) && PlanOk(st, index, d, plan)
    ensures PhaseOk(st, index, d, AfterCheckSuccess(chains, env, plan))
  {
  }

  lemma SuccessReceiptPhase(
      chains: Chains, receipts: Receipts, st: ChainState, env: Envelope, index: nat, d: Sql.Delivery,
      p: Provenance, seen: ChainState)
    requires Names(st, env, index) && Extends(seen, st) && Sound(seen) && index < seen.nextIndex
    ensures PhaseOk(st, index, d, AfterSuccessReceipt(chains, receipts, env, d.attempt, p, seen).0)
  {
  }

  /** Facts rebuilt from a receipt are the receipt owner's facts. */
  lemma RecoveredFacts(
      chains: Chains, receipts: Receipts, l: Chains, owners: Receipts, env: Envelope, index: nat, attempt: int,
      p: Provenance, seen: ChainState)
    requires env.chainId in l && Names(l[env.chainId], env, index) && seen.nodes == l[env.chainId].nodes
    requires ReceiptsOwned(chains, receipts, owners) && OwnersTruthful(l, owners)
    ensures AllOwned(l, owners, KeyOf(env), AfterSuccessReceipt(chains, receipts, env, attempt, p, seen).1)
  {
    var facts, key := AfterSuccessReceipt(chains, receipts, env, attempt, p, seen).1, KeyOf(env);
    if key in receipts {
      assert key in owners && receipts[key] == owners[key] && OwnerOk(l[env.chainId], key, owners[key]);
      FactsOfReceipt(chains, receipts, l[env.chainId], env, index, attempt, p, seen);
      forall i | 0 <= i < |facts| ensures FactOwned(l, owners, key, facts[i]) {
      }
    }
  }

  lemma FactsOfReceipt(
      chains: Chains, receipts: Receipts, st: ChainState, env: Envelope, index: nat, attempt: int, p: Provenance,
      seen: ChainState)
    requires Names(st, env, index) && seen.nodes == st.nodes
    requires KeyOf(env) in receipts && OwnerOk(st, KeyOf(env), receipts[KeyOf(env)])
    ensures var facts, r := AfterSuccessReceipt(chains, receipts, env, attempt, p, seen).1, receipts[KeyOf(env)];
            && (facts != [] ==> r.outcome == MemberSucceeded)
            && forall i :: 0 <= i < |facts| ==> OwnerFact(st, KeyOf(env), r, facts[i])
  {
  }

  // ---------- Store transitions ----------

  /** A transition that commits a node writes that node's receipt; any other transition writes nothing new. */
  predicate Installable(chains: Chains, owners: Receipts, st: ChainState, key: ReceiptKey, written: Option<Receipt>) {
    && st.chainId in chains && Sound(st) && Extends(chains[st.chainId], st)
    && (written.Some? ==>
          key !in owners && key.kind == ChainKind && key.workflowId == st.chainId && OwnerOk(st, key, written.value))
    && (st.nextIndex == chains[st.chainId].nextIndex ||
        (&& written.Some? && st.nextIndex == chains[st.chainId].nextIndex + 1
         && 0 <= chains[st.chainId].nextIndex < |st.nodes|
         && key.memberId == st.nodes[chains[st.chainId].nextIndex].nodeId))
  }

  lemma InstallOwners(
      chains: Chains, l: Chains, owners: Receipts, st: ChainState, key: ReceiptKey, written: Option<Receipt>)
    requires LedgerOk(chains, l) && OwnersTruthful(l, owners) && Installable(chains, owners, st, key, written)
    ensures OwnersTruthful(l[st.chainId := st], if written.Some? then owners[key := written.value] else owners)
  {
  }

  lemma InstallCommits(
      chains: Chains, l: Chains, owners: Receipts, st: ChainState, key: ReceiptKey, written: Option<Receipt>)
    requires LedgerOk(chains, l) && CommitsOwned(l, owners) && Installable(chains, owners, st, key, written)
    ensures CommitsOwned(l[st.chainId := st], if written.Some? then owners[key := written.value] else owners)
  {
  }

  lemma InstallLedger(chains: Chains, l: Chains, st: ChainState)
    requires LedgerOk(chains, l) && st.chainId in chains && Sound(st) && Extends(chains[st.chainId], st)
    ensures LedgerOk(chains[st.chainId := st], l[st.chainId := st]) && LedgerGrows(l, l[st.chainId := st])
  {
  }

  lemma InstallReceipts(
      chains: Chains, receipts: Receipts, owners: Receipts, st: ChainState, key: ReceiptKey, r: Option<Receipt>)
    requires ReceiptsOwned(chains, receipts, owners) && st.chainId in chains
    ensures ReceiptsOwned(chains[st.chainId := st],
                          if r.Some? then receipts[key := r.value] else receipts,
                          if r.Some? then owners[key := r.value] else owners)
  {
  }

  lemma InstallKeeps(s: System, st: ChainState, key: ReceiptKey, written: Option<Receipt>)
    requires StoreOk(s.chains, s.receipts, s.ledger, s.owners) && Installable(s.chains, s.owners, st, key, written)
    ensures var s1 := Install(s, st, key, written);
            && StoreOk(s1.chains, s1.receipts, s1.ledger, s1.owners)
            && LedgerGrows(s.ledger, s1.ledger) && OwnersGrow(s.owners, s1.owners)
  {
    InstallLedger(s.chains, s.ledger, st);
    InstallOwners(s.chains, s.ledger, s.owners, st, key, written);
    InstallCommits(s.chains, s.ledger, s.owners, st, key, written);
    InstallReceipts(s.chains, s.receipts, s.owners, st, key, written);
  }

  lemma AdvanceInstallable(
      chains: Chains, l: Chains, owners: Receipts, env: Envelope, index: nat, existing: Option<Receipt>, claim: Claim,
      now: int)
    requires env.chainId in chains && env.chainId in l && View(chains, l[env.chainId], env, index)
    requires OwnersTruthful(l, owners)
    requires claim.Valid() && claim.dispatchId == env.dispatchId && claim.jobFingerprint == Fingerprint(env.job)
    ensures var tr := AdvanceChain(chains[env.chainId], existing, env.nodeId, claim, now);
            tr.result.Ok? && Installable(chains, owners, tr.state, KeyOf(env), tr.written)
  {
  }

  lemma FailInstallable(
      chains: Chains, l: Chains, owners: Receipts, env: Envelope, index: nat, existing: Option<Receipt>,
      cause: Option<string>, claim: Claim, now: int)
    requires env.chainId in chains && env.chainId in l && View(chains, l[env.chainId], env, index)
    requires OwnersTruthful(l, owners)
    requires claim.Valid() && claim.dispatchId == env.dispatchId && claim.jobFingerprint == Fingerprint(env.job)
    ensures var tr := FailChainNode(chains[env.chainId], existing, env.nodeId, cause, claim, now);
            tr.result.Ok? && Installable(chains, owners, tr.state, KeyOf(env), tr.written)
  {
  }

  lemma AfterFailPhase(
      st: ChainState, env: Envelope, index: nat, existing: Option<Receipt>, d: Sql.Delivery, cause: Failure,
      claim: Claim, now: int)
    requires Sound(st) && Names(st, env, index) && index <= st.nextIndex && claim.dispatchId == env.dispatchId
    requires !cause.uncommitted
    ensures var tr := FailChainNode(st, existing, env.nodeId, Some(cause.text), claim, now);
            tr.result.Ok? && PhaseOk(tr.state, index, d, AfterFail(d.recovered, cause, tr.result.value))
  {
  }

  lemma AfterAdvancePhase(
      st: ChainState, env: Envelope, index: nat, existing: Option<Receipt>, d: Sql.Delivery, claim: Claim, now: int)
    requires Sound(st) && Names(st, env, index) && index <= st.nextIndex && claim.dispatchId == env.dispatchId
    ensures var tr := AdvanceChain(st, existing, env.nodeId, claim, now);
            && tr.result.Ok?
            && PhaseOk(tr.state, index, d, AfterAdvance(env, d.attempt, d.recovered, tr.result.value).0)
  {
    AdvanceEffect(st, existing, env.nodeId, claim, now);
    DispositionsPartition(st, index);
    var tr := AdvanceChain(st, existing, env.nodeId, claim, now);
    var phase := AfterAdvance(env, d.attempt, d.recovered, tr.result.value).0;
    if phase.Dispatching? {
      assert tr.state.nodes[tr.state.nextIndex] == phase.node;
    }
  }

  /** The facts of a fresh success are the facts of the receipt it wrote. */
  lemma AdvanceFacts(
      st: ChainState, env: Envelope, index: nat, existing: Option<Receipt>, d: Sql.Delivery, now: int,
      l: Chains, owners: Receipts)
    requires Sound(st) && Names(st, env, index) && index <= st.nextIndex
    requires ClaimOf(env, d.attempt, d.token).Valid()
    requires var tr := AdvanceChain(st, existing, env.nodeId, ClaimOf(env, d.attempt, d.token), now);
             && env.chainId in l && l[env.chainId] == tr.state
             && (tr.written.Some? ==> KeyOf(env) in owners && owners[KeyOf(env)] == tr.written.value)
    ensures var tr := AdvanceChain(st, existing, env.nodeId, ClaimOf(env, d.attempt, d.token), now);
            && tr.result.Ok?
            && AllOwned(l, owners, KeyOf(env), AfterAdvance(env, d.attempt, d.recovered, tr.result.value).1)
  {
  }

  // ---------- Worker steps ----------

  lemma WorkerFacts(s: System, t: string)
    requires Inv(s) && t in s.workers
    ensures var env := s.workers[t].env;
            && t in s.db.deliveries && Reached(s.ledger, env)
            && View(s.chains, s.ledger[env.chainId], env, IndexOf(s.ledger, env))
            && PhaseOk(s.ledger[env.chainId], IndexOf(s.ledger, env), s.db.deliveries[t], s.workers[t].phase)
            && AllOwned(s.ledger, s.owners, KeyOf(env), s.workers[t].facts)
            && s.db.deliveries[t].token == t
            && ClaimOf(env, s.db.deliveries[t].attempt, t).Valid()
  {
    assert Unseal(0);
    assert WorkerOk(s.ledger, s.db, t, s.workers[t]);
    assert Sql.DeliveryOk(s.db, t);
    Sql.MarkerIsNoToken();
  }

  lemma WorkersMove(l: Chains, db: Db, workers: map<string, Worker>, t: string, w: Worker)
    requires WorkersOk(l, db, workers) && WorkerOk(l, db, t, w)
    ensures WorkersOk(l, db, workers[t := w])
  {
  }

  lemma FactsMove(l: Chains, owners: Receipts, workers: map<string, Worker>, t: string, w: Worker, facts: seq<Fact>)
    requires t in workers && w.env == workers[t].env && w.facts == workers[t].facts + facts
    requires WorkerFactsOk(l, owners, workers) && AllOwned(l, owners, KeyOf(w.env), facts)
    ensures WorkerFactsOk(l, owners, workers[t := w])
  {
  }

  /** Where a worker stands admits another point. */
  lemma WorkerMoves(l: Chains, db: Db, t: string, w: Worker, w': Worker, index: nat)
    requires WorkerOk(l, db, t, w) && w'.env == w.env && index == IndexOf(l, w.env)
    requires PhaseOk(l[w.env.chainId], index, db.deliveries[t], w'.phase)
    ensures WorkerOk(l, db, t, w')
  {
  }

  /** A worker may move to any admissible point and gain any facts its node already owns. */
  lemma MoveKeeps(s: System, t: string, index: nat, phase: Phase, facts: seq<Fact>)
    requires Inv(s) && t in s.workers && t in s.db.deliveries
    requires var env := s.workers[t].env;
             && env.chainId in s.ledger && Position(s.ledger[env.chainId].nodes, env.nodeId) == Some(index)
             && Whole(PhaseOk(s.ledger[env.chainId], index, s.db.deliveries[t], phase))
             && Whole(AllOwned(s.ledger, s.owners, KeyOf(env), facts))
    ensures Inv(Move(s, t, phase, facts))
  {
    assert Unseal(0);
    var w := s.workers[t];
    var w' := Worker(w.env, w.facts + facts, phase);
    WorkerMoves(s.ledger, s.db, t, w, w', index);
    WorkersMove(s.ledger, s.db, s.workers, t, w');
    FactsMove(s.ledger, s.owners, s.workers, t, w', facts);
  }

  lemma RefusedPhase(st: ChainState, index: nat, d: Sql.Delivery, reason: string)
    ensures PhaseOk(st, index, d, Refused(reason))
  {
  }

  lemma RefuseKeeps(s: System, t: string, reason: string)
    requires Inv(s) && t in s.workers
    ensures Inv(Move(s, t, Refused(reason), []))
  {
    var env := s.workers[t].env;
    WorkerFacts(s, t);
    RefusedPhase(s.ledger[env.chainId], IndexOf(s.ledger, env), s.db.deliveries[t], reason);
    MoveKeeps(s, t, IndexOf(s.ledger, env), Refused(reason), []);
  }

  lemma ExecutePhase(st: ChainState, index: nat, d: Sql.Delivery, outcome: Outcome)
    ensures PhaseOk(st, index, d, AfterExecute(d, outcome))
  {
  }

  // ---------- Steps that change the store ----------

  lemma WorkersGrow(l: Chains, m: Chains, a: Db, b: Db, workers: map<string, Worker>)
    requires LedgerGrows(l, m) && DbGrows(a, b) && Sql.DeliveriesOk(a) && WorkersOk(l, a, workers)
    ensures WorkersOk(m, b, workers)
  {
    forall t | t in workers ensures WorkerOk(m, b, t, workers[t]) {
      GrowthKeepsWorker(l, m, a, b, t, workers[t]);
    }
  }

  lemma WorkerFactsGrow(l: Chains, m: Chains, o: Receipts, o': Receipts, workers: map<string, Worker>)
    requires LedgerGrows(l, m) && OwnersGrow(o, o') && WorkerFactsOk(l, o, workers)
    ensures WorkerFactsOk(m, o', workers)
  {
  }

  lemma RowsGrow(l: Chains, m: Chains, rows: map<nat, Sql.Row<Envelope>>)
    requires LedgerGrows(l, m) && RowsReached(l, rows)
    ensures RowsReached(m, rows)
  {
  }

  lemma InstallInv(s: System, st: ChainState, key: ReceiptKey, written: Option<Receipt>)
    requires Inv(s) && Installable(s.chains, s.owners, st, key, written)
    ensures Inv(Install(s, st, key, written))
  {
    assert Unseal(0);
    var s1 := Install(s, st, key, written);
    InstallKeeps(s, st, key, written);
    DbReflexive(s.db);
    RowsGrow(s.ledger, s1.ledger, s.db.rows);
    WorkersGrow(s.ledger, s1.ledger, s.db, s.db, s.workers);
    WorkerFactsGrow(s.ledger, s1.ledger, s.owners, s1.owners, s.workers);
    GrowthKeepsPublished(s.ledger, s1.ledger, s.owners, s1.owners, s.db, s.db, s.published);
  }

  lemma RowsEvolve(l: Chains, a: Db, b: Db)
    requires DbGrows(a, b) && a.nextId == b.nextId && Sql.RowsOk(b) && RowsReached(l, a.rows)
    ensures RowsReached(l, b.rows)
  {
  }

  lemma QueueInv(s: System, step: Sql.Step<Envelope>)
    requires Inv(s) && Sql.Enabled(s.db, step) && !step.Insert?
    ensures Inv(s.(db := Sql.Apply(s.db, step)))
  {
    assert Unseal(0);
    var db := Sql.Apply(s.db, step);
    QueueStepGrows(s.db, step);
    LedgerReflexive(s.ledger);
    RowsEvolve(s.ledger, s.db, db);
    WorkersGrow(s.ledger, s.ledger, s.db, db, s.workers);
    GrowthKeepsPublished(s.ledger, s.ledger, s.owners, s.owners, s.db, db, s.published);
  }

  lemma MarkInv(s: System, t: string, mark: bool)
    requires Inv(s) && t in s.db.deliveries
    ensures Inv(MarkCommitted(s, t, mark))
  {
    if mark {
      QueueInv(s, Sql.Commit(t));
    }
  }

  lemma MarkedClaim(s: System, t: string, mark: bool)
    requires t in s.db.deliveries
    ensures var s2 := MarkCommitted(s, t, mark);
            && s2 == s.(db := s2.db)
            && t in s2.db.deliveries && SameClaim(s.db.deliveries[t], s2.db.deliveries[t])
  {
  }

  /** What a transition must satisfy for its commit to keep the invariant. */
  predicate Admissible(s: System, t: string, index: nat, st: ChainState, written: Option<Receipt>, phase: Phase)
    requires t in s.workers && t in s.db.deliveries
  {
    && Installable(s.chains, s.owners, st, KeyOf(s.workers[t].env), written)
    && st.chainId == s.workers[t].env.chainId && Position(st.nodes, s.workers[t].env.nodeId) == Some(index)
    && PhaseOk(st, index, s.db.deliveries[t], phase)
  }

  /** A committed store transition of one worker, followed by that worker's move. */
  lemma CommitKeeps(
      s: System, t: string, index: nat, st: ChainState, written: Option<Receipt>, mark: bool, phase: Phase,
      facts: seq<Fact>)
    requires Inv(s) && t in s.workers && t in s.db.deliveries
    requires Whole(Admissible(s, t, index, st, written, phase))
    requires var s1 := Install(s, st, KeyOf(s.workers[t].env), written);
             Whole(AllOwned(s1.ledger, s1.owners, KeyOf(s.workers[t].env), facts))
    ensures Inv(Commit(s, t, st, written, mark, phase, facts))
  {
    var s1 := Install(s, st, KeyOf(s.workers[t].env), written);
    var s2 := MarkCommitted(s1, t, mark);
    InstallInv(s, st, KeyOf(s.workers[t].env), written);
    MarkInv(s1, t, mark);
    MarkedClaim(s1, t, mark);
    GrowthKeepsPhase(st, st, index, s.db.deliveries[t], s2.db.deliveries[t], phase);
    MoveKeeps(s2, t, index, phase, facts);
  }

  lemma FailReady(s: System, t: string, index: nat, cause: Failure, now: int)
    requires Inv(s) && t in s.workers && t in s.db.deliveries && s.workers[t].env.chainId in s.chains
    requires Whole(Reached(s.ledger, s.workers[t].env)) && index == IndexOf(s.ledger, s.workers[t].env)
    requires !cause.uncommitted
    ensures var tr := FailCall(s, t, cause, now);
            tr.result.Ok? && Admissible(s, t, index, tr.state, tr.written,
                                        AfterFail(s.db.deliveries[t].recovered, cause, tr.result.value))
  {
    assert Unseal(0);
    var env, d := s.workers[t].env, s.db.deliveries[t];
    WorkerFacts(s, t);
    var existing, claim := Lookup(s.receipts, KeyOf(env)), ClaimOf(env, d.attempt, t);
    FailInstallable(s.chains, s.ledger, s.owners, env, index, existing, Some(cause.text), claim, now);
    AfterFailPhase(s.chains[env.chainId], env, index, existing, d, cause, claim, now);
    FailEffect(s.chains[env.chainId], existing, env.nodeId, Some(cause.text), claim, now);
  }

  lemma FailCommitKeeps(s: System, t: string, index: nat, cause: Failure, tr: Transition<FailResult>)
    requires Inv(s) && t in s.workers && t in s.db.deliveries && tr.result.Ok?
    requires Whole(Admissible(s, t, index, tr.state, tr.written,
                              AfterFail(s.db.deliveries[t].recovered, cause, tr.result.value)))
    ensures Inv(FailCommit(s, t, cause, tr))
  {
    CommitKeeps(s, t, index, tr.state, tr.written, tr.result.value.claimedNow && tr.result.value.receipt.Some?,
                AfterFail(s.db.deliveries[t].recovered, cause, tr.result.value), []);
  }

  lemma FailKeeps(s: System, t: string, input: Input, cause: Failure)
    requires Inv(s) && t in s.workers && t in s.db.deliveries && s.workers[t].phase == Failing(cause)
    ensures Inv(FailStep(s, t, input, cause))
  {
    if input.storeDown || s.workers[t].env.chainId !in s.chains {
      RefuseKeeps(s, t, "fail chain");
    } else {
      WorkerFacts(s, t);
      FailReady(s, t, IndexOf(s.ledger, s.workers[t].env), cause, input.now);
      FailCommitKeeps(s, t, IndexOf(s.ledger, s.workers[t].env), cause, FailCall(s, t, cause, input.now));
    }
  }

  lemma AdvanceReady(s: System, t: string, index: nat, now: int)
    requires Inv(s) && t in s.workers && t in s.db.deliveries && s.workers[t].env.chainId in s.chains
    requires Whole(Reached(s.ledger, s.workers[t].env)) && index == IndexOf(s.ledger, s.workers[t].env)
    ensures var tr, env, d := AdvanceCall(s, t, now), s.workers[t].env, s.db.deliveries[t];
            tr.result.Ok? && Admissible(s, t, index, tr.state, tr.written,
                                        AfterAdvance(env, d.attempt, d.recovered, tr.result.value).0)
  {
    assert Unseal(0);
    var env, d := s.workers[t].env, s.db.deliveries[t];
    WorkerFacts(s, t);
    var existing, claim := Lookup(s.receipts, KeyOf(env)), ClaimOf(env, d.attempt, t);
    AdvanceInstallable(s.chains, s.ledger, s.owners, env, index, existing, claim, now);
    AfterAdvancePhase(s.chains[env.chainId], env, index, existing, d, claim, now);
    AdvanceEffect(s.chains[env.chainId], existing, env.nodeId, claim, now);
  }

  lemma AdvanceOwnsFacts(s: System, t: string, index: nat, now: int)
    requires Inv(s) && t in s.workers && t in s.db.deliveries && s.workers[t].env.chainId in s.chains
    requires Whole(Reached(s.ledger, s.workers[t].env)) && index == IndexOf(s.ledger, s.workers[t].env)
    requires var tr := AdvanceCall(s, t, now);
             tr.result.Ok? && Whole(Installable(s.chains, s.owners, tr.state, KeyOf(s.workers[t].env), tr.written))
    ensures var tr, env, d := AdvanceCall(s, t, now), s.workers[t].env, s.db.deliveries[t];
            var s1 := Install(s, tr.state, KeyOf(env), tr.written);
            AllOwned(s1.ledger, s1.owners, KeyOf(env), AfterAdvance(env, d.attempt, d.recovered, tr.result.value).1)
  {
    var env, tr := s.workers[t].env, AdvanceCall(s, t, now);
    WorkerFacts(s, t);
    var s1 := Install(s, tr.state, KeyOf(env), tr.written);
    AdvanceEffect(s.chains[env.chainId], Lookup(s.receipts, KeyOf(env)), env.nodeId,
                  ClaimOf(env, s.db.deliveries[t].attempt, t), now);
    AdvanceFacts(s.chains[env.chainId], env, index, Lookup(s.receipts, KeyOf(env)), s.db.deliveries[t], now,
                 s1.ledger, s1.owners);
  }

  lemma AdvanceCommitKeeps(s: System, t: string, index: nat, tr: Transition<AdvanceResult>)
    requires Inv(s) && t in s.workers && t in s.db.deliveries && tr.result.Ok?
    requires var env, d := s.workers[t].env, s.db.deliveries[t];
             var next, s1 := AfterAdvance(env, d.attempt, d.recovered, tr.result.value),
                             Install(s, tr.state, KeyOf(env), tr.written);
             && Whole(Admissible(s, t, index, tr.state, tr.written, next.0))
             && Whole(AllOwned(s1.ledger, s1.owners, KeyOf(env), next.1))
    ensures Inv(AdvanceCommit(s, t, tr))
  {
    var d := s.db.deliveries[t];
    var next := AfterAdvance(s.workers[t].env, d.attempt, d.recovered, tr.result.value);
    CommitKeeps(s, t, index, tr.state, tr.written, tr.result.value.claimedNow && tr.result.value.receipt.Some?,
                next.0, next.1);
  }

  lemma AdvanceKeeps(s: System, t: string, input: Input)
    requires Inv(s) && t in s.workers && t in s.db.deliveries
    ensures Inv(AdvanceStep(s, t, input))
  {
    if input.storeDown || s.workers[t].env.chainId !in s.chains {
      RefuseKeeps(s, t, "advance chain");
    } else {
      WorkerFacts(s, t);
      var index := IndexOf(s.ledger, s.workers[t].env);
      AdvanceReady(s, t, index, input.now);
      AdvanceOwnsFacts(s, t, index, input.now);
      AdvanceCommitKeeps(s, t, index, AdvanceCall(s, t, input.now));
    }
  }

  // ---------- Enqueue, settlement and the remaining actions ----------

  lemma EnqueueInv(s: System, env: Envelope, reply: Reply, now: int)
    requires Inv(s) && Reached(s.ledger, env)
    ensures Inv(Enqueue(s, env, reply, now))
  {
    assert Unseal(0);
    if Inserts(env, reply) {
      var db := Sql.Apply(s.db, RowOf(env, now));
      QueueStepGrows(s.db, RowOf(env, now));
      LedgerReflexive(s.ledger);
      GrowthKeepsRows(s.ledger, s.ledger, s.db, db);
      WorkersGrow(s.ledger, s.ledger, s.db, db, s.workers);
      GrowthKeepsPublished(s.ledger, s.ledger, s.owners, s.owners, s.db, db, s.published);
    }
  }

  lemma NodeEnvelopeReached(l: Chains, c: string, node: ChainNode, jobId: string)
    requires c in l && Sound(l[c]) && l[c].chainId == c && l[c].dispatchId != "" && NodeReached(l[c], node)
    requires jobId != ""
    ensures Reached(l, NodeEnvelope(l[c].dispatchId, c, node, jobId))
  {
  }

  lemma DispatchPhase(st: ChainState, index: nat, d: Sql.Delivery, node: ChainNode, accepted: bool)
    requires PhaseOk(st, index, d, Dispatching(node))
    ensures PhaseOk(st, index, d, if accepted then Returned(Succeeded, 0) else Refused("dispatch next chain node"))
  {
  }

  lemma EnqueueFrame(s: System, env: Envelope, reply: Reply, now: int)
    ensures var s1 := Enqueue(s, env, reply, now);
            s1 == s.(db := s1.db) && s1.db.deliveries == s.db.deliveries && s1.db.settled == s.db.settled
  {
  }

  lemma DispatchKeeps(s: System, t: string, input: Input, node: ChainNode)
    requires Inv(s) && t in s.workers && t in s.db.deliveries && s.workers[t].phase == Dispatching(node)
    requires input.jobId != ""
    ensures Inv(DispatchStep(s, t, input, node))
  {
    var env := s.workers[t].env;
    var next := NodeEnvelope(env.dispatchId, env.chainId, node, input.jobId);
    var accepted := input.reply == Accepted && Inserts(next, input.reply);
    WorkerFacts(s, t);
    var index := IndexOf(s.ledger, env);
    DispatchPhase(s.ledger[env.chainId], index, s.db.deliveries[t], node, accepted);
    NodeEnvelopeReached(s.ledger, env.chainId, node, input.jobId);
    EnqueueInv(s, next, input.reply, input.now);
    EnqueueFrame(s, next, input.reply, input.now);
    MoveKeeps(Enqueue(s, next, input.reply, input.now), t, index,
              if accepted then Returned(Succeeded, 0) else Refused("dispatch next chain node"), []);
  }

  lemma DropKeeps(s: System, t: string)
    requires Inv(s)
    ensures Inv(s.(workers := s.workers - {t}))
  {
  }

  /** A settlement that changed its row is the generation's first, so its facts are published truthfully. */
  lemma PublishKeeps(s: System, t: string)
    requires Inv(s) && t in s.workers && t in s.db.deliveries && Sql.Count(s.db, t) == 1
    ensures Inv(s.(published := s.published + Publications(s.workers[t], t), workers := s.workers - {t}))
  {
    assert Unseal(0);
    var w := s.workers[t];
    assert AllOwned(s.ledger, s.owners, KeyOf(w.env), w.facts);
    DropKeeps(s, t);
  }

  lemma ReturnedPhase(st: ChainState, index: nat, d: Sql.Delivery, outcome: Outcome, a: nat, b: nat)
    requires PhaseOk(st, index, d, Returned(outcome, a))
    ensures PhaseOk(st, index, d, Returned(outcome, b))
  {
  }

  /** The statement that hit its row counts once; the worker itself is untouched. */
  lemma SettleFrame(db: Db, t: string, outcome: Outcome, now: int)
    requires Sql.Inv(db) && t in db.deliveries
    ensures var after := Sql.Apply(db, Sql.Settle(t, outcome, now));
            && after.deliveries == db.deliveries
            && (Sql.Owns(db.rows, db.deliveries[t]) ==> Sql.Count(after, t) == 1)
  {
  }

  lemma SettleTryKeeps(s: System, t: string, outcome: Outcome, tries: nat)
    requires Inv(s) && t in s.workers && t in s.db.deliveries && s.workers[t].phase == Returned(outcome, tries)
    ensures Inv(Move(s, t, Returned(outcome, tries + 1), []))
  {
    var env := s.workers[t].env;
    WorkerFacts(s, t);
    ReturnedPhase(s.ledger[env.chainId], IndexOf(s.ledger, env), s.db.deliveries[t], outcome, tries, tries + 1);
    MoveKeeps(s, t, IndexOf(s.ledger, env), Returned(outcome, tries + 1), []);
  }

  lemma SettleKeeps(s: System, t: string, input: Input, outcome: Outcome, tries: nat)
    requires Inv(s) && t in s.workers && t in s.db.deliveries && s.workers[t].phase == Returned(outcome, tries)
    ensures Inv(SettleStep(s, t, input, outcome, tries))
  {
    assert Unseal(0);
    var settled := s.(db := Sql.Apply(s.db, Sql.Settle(t, outcome, input.now)));
    var restored := s.(db := Sql.Apply(s.db, Sql.Restore(t, input.now)));
    QueueInv(s, Sql.Settle(t, outcome, input.now));
    QueueInv(s, Sql.Restore(t, input.now));
    SettleFrame(s.db, t, outcome, input.now);
    var s1 := if input.applied then settled else s;
    if tries >= Sql.FINALIZE_RETRY_COUNT {
      DropKeeps(if input.applied then restored else s, t);
    } else if input.applied && input.acknowledged && Sql.Owns(s.db.rows, s.db.deliveries[t]) {
      PublishKeeps(settled, t);
    } else {
      SettleTryKeeps(s1, t, outcome, tries);
    }
  }

  lemma EnterPhase(st: ChainState, index: nat, d: Sql.Delivery)
    ensures PhaseOk(st, index, d, if d.recovered then CheckFailure(TrySuccess(RunHandler)) else Execute)
  {
  }

  /** Reading and running keep the worker at an admissible point of the chain it is about. */
  lemma NextPointPhase(
      chains: Chains, receipts: Receipts, st: ChainState, index: nat, w: Worker, d: Sql.Delivery, input: Input)
    requires !w.phase.Failing? && !w.phase.Advancing? && !w.phase.Dispatching? && !w.phase.Returned?
    requires View(chains, st, w.env, index) && PhaseOk(st, index, d, w.phase)
    ensures PhaseOk(st, index, d, NextPoint(chains, receipts, w, d, input).0)
  {
    match w.phase {
      case Entered => EnterPhase(st, index, d);
      case Execute => ExecutePhase(st, index, d, input.outcome);
      case CheckFailure(plan) => CheckFailurePhase(chains, st, w.env, index, d, plan);
      case FailureReceipt(seen, plan) => FailureReceiptPhase(chains, receipts, st, w.env, index, d, seen, plan);
      case CheckSuccess(plan) => CheckSuccessPhase(chains, st, w.env, index, d, plan);
      case SuccessReceipt(seen, _) =>
        SuccessReceiptPhase(chains, receipts, st, w.env, index, d, ProvenanceOf(d), seen);
    }
  }

  lemma NextPointFacts(
      chains: Chains, receipts: Receipts, l: Chains, owners: Receipts, index: nat, w: Worker, d: Sql.Delivery,
      input: Input)
    requires !w.phase.Failing? && !w.phase.Advancing? && !w.phase.Dispatching? && !w.phase.Returned?
    requires w.env.chainId in l && View(chains, l[w.env.chainId], w.env, index)
    requires PhaseOk(l[w.env.chainId], index, d, w.phase)
    requires ReceiptsOwned(chains, receipts, owners) && OwnersTruthful(l, owners)
    ensures AllOwned(l, owners, KeyOf(w.env), NextPoint(chains, receipts, w, d, input).1)
  {
    if w.phase.SuccessReceipt? {
      RecoveredFacts(chains, receipts, l, owners, w.env, index, d.attempt, ProvenanceOf(d), w.phase.seen);
    }
  }

  lemma PointKeeps(s: System, t: string, input: Input)
    requires Inv(s) && t in s.workers && t in s.db.deliveries
    requires var p := s.workers[t].phase; !p.Failing? && !p.Advancing? && !p.Dispatching? && !p.Returned?
    ensures var next := NextPoint(s.chains, s.receipts, s.workers[t], s.db.deliveries[t], input);
            Inv(Move(s, t, next.0, next.1))
  {
    assert Unseal(0);
    var w, d := s.workers[t], s.db.deliveries[t];
    var next := NextPoint(s.chains, s.receipts, w, d, input);
    WorkerFacts(s, t);
    var index := IndexOf(s.ledger, w.env);
    NextPointPhase(s.chains, s.receipts, s.ledger[w.env.chainId], index, w, d, input);
    NextPointFacts(s.chains, s.receipts, s.ledger, s.owners, index, w, d, input);
    MoveKeeps(s, t, index, next.0, next.1);
  }

  lemma WorkShape(s: System, t: string, input: Input)
    requires t in s.workers && t in s.db.deliveries
    ensures s.workers[t].phase.Failing? ==> WorkStep(s, t, input) == FailStep(s, t, input, s.workers[t].phase.cause)
    ensures s.workers[t].phase.Advancing? ==> WorkStep(s, t, input) == AdvanceStep(s, t, input)
    ensures s.workers[t].phase.Dispatching? ==>
              WorkStep(s, t, input) == DispatchStep(s, t, input, s.workers[t].phase.node)
    ensures s.workers[t].phase.Returned? ==>
              WorkStep(s, t, input) == SettleStep(s, t, input, s.workers[t].phase.outcome, s.workers[t].phase.tries)
  {
  }

  lemma StoreWorkKeeps(s: System, t: string, input: Input)
    requires Inv(s) && t in s.workers && t in s.db.deliveries
    requires s.workers[t].phase.Failing? || s.workers[t].phase.Advancing?
    ensures Inv(WorkStep(s, t, input))
  {
    WorkShape(s, t, input);
    match s.workers[t].phase {
      case Failing(cause) => FailKeeps(s, t, input, cause);
      case Advancing => AdvanceKeeps(s, t, input);
    }
  }

  lemma QueueWorkKeeps(s: System, t: string, input: Input)
    requires Inv(s) && t in s.workers && t in s.db.deliveries && input.jobId != ""
    requires s.workers[t].phase.Dispatching? || s.workers[t].phase.Returned?
    ensures Inv(WorkStep(s, t, input))
  {
    WorkShape(s, t, input);
    match s.workers[t].phase {
      case Dispatching(node) => DispatchKeeps(s, t, input, node);
      case Returned(outcome, tries) => SettleKeeps(s, t, input, outcome, tries);
    }
  }

  lemma WorkKeeps(s: System, t: string, input: Input)
    requires Inv(s) && t in s.workers && t in s.db.deliveries && input.jobId != ""
    ensures Inv(WorkStep(s, t, input))
  {
    var phase := s.workers[t].phase;
    if phase.Failing? || phase.Advancing? {
      StoreWorkKeeps(s, t, input);
    } else if phase.Dispatching? || phase.Returned? {
      QueueWorkKeeps(s, t, input);
    } else {
      PointKeeps(s, t, input);
    }
  }

  // ---------- Creation, claims, pruning ----------

  lemma CreateLedger(chains: Chains, l: Chains, st: ChainState)
    requires LedgerOk(chains, l) && st.chainId !in l && Sound(st) && st.dispatchId != ""
    ensures LedgerOk(chains[st.chainId := st], l[st.chainId := st]) && LedgerGrows(l, l[st.chainId := st])
  {
  }

  lemma CreateOwners(l: Chains, owners: Receipts, st: ChainState)
    requires OwnersTruthful(l, owners) && st.chainId !in l
    ensures OwnersTruthful(l[st.chainId := st], owners)
  {
  }

  lemma CreateCommits(l: Chains, owners: Receipts, st: ChainState)
    requires CommitsOwned(l, owners) && st.chainId !in l && st.nextIndex == 0
    ensures CommitsOwned(l[st.chainId := st], owners)
  {
  }

  lemma CreateReceipts(chains: Chains, receipts: Receipts, l: Chains, owners: Receipts, st: ChainState)
    requires ReceiptsOwned(chains, receipts, owners) && OwnersTruthful(l, owners) && st.chainId !in l
    ensures ReceiptsOwned(chains[st.chainId := st], receipts, owners)
  {
  }

  lemma CreateStore(chains: Chains, receipts: Receipts, l: Chains, owners: Receipts, st: ChainState)
    requires StoreOk(chains, receipts, l, owners) && st.chainId !in l
    requires Sound(st) && st.dispatchId != "" && st.nextIndex == 0
    ensures Whole(StoreOk(chains[st.chainId := st], receipts, l[st.chainId := st], owners))
    ensures Whole(LedgerGrows(l, l[st.chainId := st]))
  {
    CreateLedger(chains, l, st);
    CreateOwners(l, owners, st);
    CreateCommits(l, owners, st);
    CreateReceipts(chains, receipts, l, owners, st);
  }

  lemma CreateKeeps(s: System, record: ChainRecord, now: int)
    requires Inv(s) && Enabled(s, Create(record, now))
    ensures Inv(Do(s, Create(record, now)))
  {
    assert Unseal(0);
    var st := NewChain(record, now);
    var l := s.ledger[record.chainId := st];
    CreateStore(s.chains, s.receipts, s.ledger, s.owners, st);
    DbReflexive(s.db);
    RowsGrow(s.ledger, l, s.db.rows);
    WorkersGrow(s.ledger, l, s.db, s.db, s.workers);
    WorkerFactsGrow(s.ledger, l, s.owners, s.owners, s.workers);
    GrowthKeepsPublished(s.ledger, l, s.owners, s.owners, s.db, s.db, s.published);
  }

  lemma StartingIsFree(s: System, starting: map<string, StartPhase>)
    requires Inv(s)
    ensures Inv(s.(starting := starting))
  {
  }

  lemma StartKeeps(s: System, chainId: string, jobId: string, reply: Reply, now: int)
    requires Inv(s) && Enabled(s, Start(chainId, jobId, reply, now))
    ensures Inv(StartChain(s, chainId, jobId, reply, now))
  {
    assert LedgerOk(s.chains, s.ledger) by { assert Unseal(0); }
    var st := s.chains[chainId];
    var env := NodeEnvelope(st.dispatchId, chainId, st.nodes[0], jobId);
    assert s.ledger[chainId] == st && st.nodes[0] == st.nodes[0];
    NodeEnvelopeReached(s.ledger, chainId, st.nodes[0], jobId);
    EnqueueInv(s, env, reply, now);
    StartingIsFree(Enqueue(s, env, reply, now), StartChain(s, chainId, jobId, reply, now).starting);
  }

  function FailStartCall(s: System, chainId: string, cause: string, now: int): Transition<FailResult>
    requires chainId in s.chains && |s.chains[chainId].nodes| > 0
  {
    var st := s.chains[chainId];
    FailChainNode(st, Lookup(s.receipts, ReceiptKey(ChainKind, chainId, st.nodes[0].nodeId)), st.nodes[0].nodeId,
                  Some(cause), NO_CLAIM, now)
  }

  /** A creator's failure carries no claim, so it writes no receipt. */
  lemma FailStartReady(s: System, chainId: string, cause: string, now: int)
    requires LedgerOk(s.chains, s.ledger) && chainId in s.chains && |s.chains[chainId].nodes| > 0
    ensures var tr := FailStartCall(s, chainId, cause, now);
            && tr.written == None && tr.state.chainId == chainId
            && Installable(s.chains, s.owners, tr.state,
                           ReceiptKey(ChainKind, chainId, s.chains[chainId].nodes[0].nodeId), None)
  {
  }

  lemma FailStartShape(s: System, chainId: string, cause: string, now: int)
    requires chainId in s.chains && |s.chains[chainId].nodes| > 0
    ensures var tr, key := FailStartCall(s, chainId, cause, now),
                           ReceiptKey(ChainKind, chainId, s.chains[chainId].nodes[0].nodeId);
            FailStartedChain(s, chainId, cause, now) ==
            if tr.result.Err? then s else Install(s, tr.state, key, tr.written).(starting := s.starting - {chainId})
  {
  }

  lemma FailStartKeeps(s: System, chainId: string, cause: string, now: int)
    requires Inv(s) && Enabled(s, FailStart(chainId, cause, now))
    ensures Inv(FailStartedChain(s, chainId, cause, now))
  {
    assert Unseal(0);
    var key := ReceiptKey(ChainKind, chainId, s.chains[chainId].nodes[0].nodeId);
    var tr := FailStartCall(s, chainId, cause, now);
    FailStartShape(s, chainId, cause, now);
    FailStartReady(s, chainId, cause, now);
    InstallInv(s, tr.state, key, tr.written);
    StartingIsFree(Install(s, tr.state, key, tr.written), s.starting - {chainId});
  }

  lemma EnterKeeps(s: System, t: string, w: Worker)
    requires Inv(s) && WorkerOk(s.ledger, s.db, t, w) && w.facts == []
    ensures Inv(s.(workers := s.workers[t := w]))
  {
    assert Unseal(0);
    WorkersMove(s.ledger, s.db, s.workers, t, w);
  }

  lemma ClaimKeeps(s: System, id: nat, token: string, now: int)
    requires Inv(s) && Enabled(s, ClaimRow(id, token, now))
    ensures Inv(Do(s, ClaimRow(id, token, now)))
  {
    var s1 := s.(db := Sql.Apply(s.db, Sql.Claim(id, token, now)));
    var w := Worker(s.db.rows[id].payload, [], Entered);
    assert Reached(s.ledger, w.env) by { assert Unseal(0); }
    QueueInv(s, Sql.Claim(id, token, now));
    EnterKeeps(s1, token, w);
  }

  lemma PruneOwned(chains: Chains, receipts: Receipts, owners: Receipts, before: int)
    requires ReceiptsOwned(chains, receipts, owners)
    ensures ReceiptsOwned(
              map c | c in chains && !Expired(chains[c], before) :: chains[c],
              map k | k in receipts && !(k.workflowId in chains && Expired(chains[k.workflowId], before))
                :: receipts[k],
              owners)
  {
  }

  lemma PruneKeeps(s: System, before: int)
    requires Inv(s)
    ensures Inv(PruneStore(s, before))
  {
    assert Unseal(0);
    PruneOwned(s.chains, s.receipts, s.owners, before);
  }

  lemma StepKeepsInv(s: System, a: Action)
    requires Inv(s) && Enabled(s, a)
    ensures Inv(Do(s, a))
  {
    match a {
      case Create(record, now) => CreateKeeps(s, record, now);
      case Start(chainId, jobId, reply, now) => StartKeeps(s, chainId, jobId, reply, now);
      case FailStart(chainId, cause, now) => FailStartKeeps(s, chainId, cause, now);
      case ClaimRow(id, token, now) => ClaimKeeps(s, id, token, now);
      case Recover(now, cfg) => QueueInv(s, Sql.RecoverStale(now, cfg));
      case Crash(token) => DropKeeps(s, token);
      case Prune(before) => PruneKeeps(s, before);
      case Work(token, input) => WorkKeeps(s, token, input);
    }
  }

  lemma {:induction false} RunKeepsInv(s: System, actions: seq<Action>, end: System)
    requires Inv(s) && IsRun(s, actions, end)
    ensures Inv(end)
    decreases |actions|
  {
    if actions != [] {
      StepKeepsInv(s, actions[0]);
      RunKeepsInv(Do(s, actions[0]), actions[1..], end);
    }
  }

  lemma InitialInv(s: System)
    requires Initial(s)
    ensures Inv(s)
  {
  }

  lemma Reachable(start: System, actions: seq<Action>, s: System)
    requires Initial(start) && IsRun(start, actions, s)
    ensures Inv(s)
  {
    InitialInv(start);
    RunKeepsInv(start, actions, s);
  }
}
