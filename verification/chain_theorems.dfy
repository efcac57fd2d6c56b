/** What every run of chains over SQL rows guarantees, with overlapping leases, lost replies, crashes and pruning. */
module ChainTheorems {
  import opened Common
  import opened Attempts
  import opened WorkflowTypes
  import opened ChainStore
  import opened Recovery
  import opened ChainEngine
  import opened ChainInvariant
  import opened ChainSafety
  import Sql = SqlRows

  // ---------- Chain order ----------

  /** Every node before the delivered one committed, and a chain that failed stopped no earlier than it. */
  predicate InOrder(s: System, env: Envelope) {
    && Reached(s.ledger, env)
    && var st, index := s.ledger[env.chainId], IndexOf(s.ledger, env);
       && index <= st.nextIndex
       && (forall j :: 0 <= j < index ==>
             && ReceiptKey(ChainKind, env.chainId, st.nodes[j].nodeId) in s.owners
             && s.owners[ReceiptKey(ChainKind, env.chainId, st.nodes[j].nodeId)].outcome == MemberSucceeded)
  }

  lemma ReachedInOrder(s: System, env: Envelope)
    requires Inv(s) && Reached(s.ledger, env)
    ensures InOrder(s, env)
  {
    assert Unseal(0);
    var st, index := s.ledger[env.chainId], IndexOf(s.ledger, env);
    forall j | 0 <= j < index
      ensures ReceiptKey(ChainKind, env.chainId, st.nodes[j].nodeId) in s.owners
      ensures s.owners[ReceiptKey(ChainKind, env.chainId, st.nodes[j].nodeId)].outcome == MemberSucceeded
    {
      var key := ReceiptKey(ChainKind, env.chainId, st.nodes[j].nodeId);
      assert key in s.owners;
      PositionOfNode(st.nodes, j);
      assert OwnerOk(st, key, s.owners[key]);
    }
  }

  /**
   Chain order over every run: whatever a queue row or a worker delivers, its node is at or before the current one and
   all earlier nodes committed with a success receipt. A handler therefore runs only after its predecessors committed,
   and never for a node after the one the chain failed at.
   */
  lemma DeliveriesFollowChainOrder(start: System, actions: seq<Action>, s: System)
    requires Initial(start) && IsRun(start, actions, s)
    ensures forall id :: id in s.db.rows ==> InOrder(s, s.db.rows[id].payload)
    ensures forall t :: t in s.workers ==> InOrder(s, s.workers[t].env)
  {
    assert Unseal(0);
    Reachable(start, actions, s);
    forall id | id in s.db.rows ensures InOrder(s, s.db.rows[id].payload) {
      ReachedInOrder(s, s.db.rows[id].payload);
    }
    forall t | t in s.workers ensures InOrder(s, s.workers[t].env) {
      assert WorkerOk(s.ledger, s.db, t, s.workers[t]);
      ReachedInOrder(s, s.workers[t].env);
    }
  }

  // ---------- Facts ----------

  /**
   Every published job_succeeded, chain_advanced or chain_completed fact carries the identity computed from the single
   receipt owner of its node, and its publisher's settlement statement changed the row exactly once.
   */
  lemma PublishedFactsHaveOneOwner(start: System, actions: seq<Action>, s: System, p: Publication, q: Publication)
    requires Initial(start) && IsRun(start, actions, s) && p in s.published && q in s.published
    ensures var key := ReceiptKey(ChainKind, p.chainId, p.nodeId);
            && p.chainId in s.ledger && key in s.owners
            && Position(s.ledger[p.chainId].nodes, p.nodeId).Some?
            && OwnerFact(s.ledger[p.chainId], key, s.owners[key], p.fact)
    ensures Sql.Count(s.db, p.generation) == 1
    ensures p.chainId == q.chainId && p.nodeId == q.nodeId && p.fact.kind == q.fact.kind ==> p.fact == q.fact
  {
    assert Unseal(0);
    Reachable(start, actions, s);
    assert PublicationOk(s.ledger, s.owners, s.db, p) && PublicationOk(s.ledger, s.owners, s.db, q);
  }

  // ---------- Defensive errors ----------

  /** An infrastructure refusal produced by a check rather than by an unavailable store. */
  predicate IsRefusal(phase: Phase) {
    phase.Returned? && phase.outcome.Errored? && phase.outcome.failure.uncommitted
  }

  lemma ChecksNeverRefuse(
      chains: Chains, st: ChainState, env: Envelope, index: nat, d: Sql.Delivery, plan: Plan)
    requires View(chains, st, env, index) && env.chainId in chains && PlanOk(st, index, d, plan)
    ensures var phase := AfterCheckFailure(chains, env, plan); phase == Proceed(plan) || phase.FailureReceipt?
    ensures !IsRefusal(AfterCheckSuccess(chains, env, plan))
  {
  }

  /** A stored receipt of the node, if any, is the truthful one. */
  lemma StoredReceipt(chains: Chains, receipts: Receipts, l: Chains, owners: Receipts, env: Envelope)
    requires StoreOk(chains, receipts, l, owners) && env.chainId in l
    ensures KeyOf(env) in receipts ==> OwnerOk(l[env.chainId], KeyOf(env), receipts[KeyOf(env)])
  {
  }

  lemma SuccessReceiptAccepted(
      chains: Chains, receipts: Receipts, st: ChainState, env: Envelope, index: nat, attempt: int, p: Provenance,
      seen: ChainState)
    requires env.chainId in chains && View(chains, st, env, index) && Extends(seen, st) && index < seen.nextIndex
    requires KeyOf(env) in receipts ==> OwnerOk(st, KeyOf(env), receipts[KeyOf(env)])
    ensures !IsRefusal(AfterSuccessReceipt(chains, receipts, env, attempt, p, seen).0)
  {
  }

  lemma FailureReceiptAccepted(
      chains: Chains, receipts: Receipts, st: ChainState, env: Envelope, index: nat, d: Sql.Delivery,
      seen: ChainState, plan: Plan)
    requires env.chainId in chains && View(chains, st, env, index) && PhaseOk(st, index, d, FailureReceipt(seen, plan))
    requires KeyOf(env) in receipts ==> OwnerOk(st, KeyOf(env), receipts[KeyOf(env)])
    ensures !IsRefusal(AfterFailureReceipt(chains, receipts, env, seen, plan))
  {
  }

  lemma FailAnswerFits(s: System, t: string, index: nat, cause: Failure, now: int)
    requires Inv(s) && t in s.workers && t in s.db.deliveries && s.workers[t].env.chainId in s.chains
    requires Whole(Reached(s.ledger, s.workers[t].env)) && index == IndexOf(s.ledger, s.workers[t].env)
    requires !cause.uncommitted
    ensures var result := FailCall(s, t, cause, now).result;
            result.Ok? && !IsRefusal(AfterFail(s.db.deliveries[t].recovered, cause, result.value))
  {
    var env := s.workers[t].env;
    WorkerFacts(s, t);
    FailReady(s, t, index, cause, now);
    FailEffect(s.chains[env.chainId], Lookup(s.receipts, KeyOf(env)), env.nodeId, Some(cause.text),
               ClaimOf(env, s.db.deliveries[t].attempt, t), now);
  }

  lemma AdvanceAnswerFits(s: System, t: string, index: nat, now: int)
    requires Inv(s) && t in s.workers && t in s.db.deliveries && s.workers[t].env.chainId in s.chains
    requires Whole(Reached(s.ledger, s.workers[t].env)) && index == IndexOf(s.ledger, s.workers[t].env)
    ensures var result, d := AdvanceCall(s, t, now).result, s.db.deliveries[t];
            result.Ok? && !IsRefusal(AfterAdvance(s.workers[t].env, d.attempt, d.recovered, result.value).0)
  {
    var env := s.workers[t].env;
    WorkerFacts(s, t);
    AdvanceReady(s, t, index, now);
    AdvanceEffect(s.chains[env.chainId], Lookup(s.receipts, KeyOf(env)), env.nodeId,
                  ClaimOf(env, s.db.deliveries[t].attempt, t), now);
    DispositionsPartition(s.chains[env.chainId], index);
  }

  /**
   While its chain is stored, no delivery of a reachable system runs into a defensive error: the recovery checks accept
   the chain and its receipt, the store never answers that a node was received too early, and the answers of its advance
   and failure calls are never found inconsistent.
   */
  lemma DefensiveErrorsUnreachable(start: System, actions: seq<Action>, s: System, t: string, input: Input)
    requires Initial(start) && IsRun(start, actions, s)
    requires t in s.workers && t in s.db.deliveries && s.workers[t].env.chainId in s.chains && !input.storeDown
    ensures forall cause :: s.workers[t].phase == Failing(cause) ==>
              var result := FailCall(s, t, cause, input.now).result;
              result.Ok? && !IsRefusal(AfterFail(s.db.deliveries[t].recovered, cause, result.value))
    ensures s.workers[t].phase == Advancing ==>
              var result, d := AdvanceCall(s, t, input.now).result, s.db.deliveries[t];
              result.Ok? && !IsRefusal(AfterAdvance(s.workers[t].env, d.attempt, d.recovered, result.value).0)
    ensures var p := s.workers[t].phase;
            p.CheckFailure? || p.FailureReceipt? || p.CheckSuccess? || p.SuccessReceipt? ==>
              !IsRefusal(NextPoint(s.chains, s.receipts, s.workers[t], s.db.deliveries[t], input).0)
  {
    Reachable(start, actions, s);
    assert StoreOk(s.chains, s.receipts, s.ledger, s.owners) by { assert Unseal(0); }
    WorkerFacts(s, t);
    var w, d := s.workers[t], s.db.deliveries[t];
    var st, index := s.ledger[w.env.chainId], IndexOf(s.ledger, w.env);
    match w.phase {
      case Failing(cause) => FailAnswerFits(s, t, index, cause, input.now);
      case Advancing => AdvanceAnswerFits(s, t, index, input.now);
      case CheckFailure(plan) => ChecksNeverRefuse(s.chains, st, w.env, index, d, plan);
      case CheckSuccess(plan) => ChecksNeverRefuse(s.chains, st, w.env, index, d, plan);
      case FailureReceipt(seen, plan) =>
        StoredReceipt(s.chains, s.receipts, s.ledger, s.owners, w.env);
        FailureReceiptAccepted(s.chains, s.receipts, st, w.env, index, d, seen, plan);
      case SuccessReceipt(seen, _) =>
        StoredReceipt(s.chains, s.receipts, s.ledger, s.owners, w.env);
        SuccessReceiptAccepted(s.chains, s.receipts, st, w.env, index, d.attempt, ProvenanceOf(d), seen);
      case _ =>
    }
  }
}
