/**
 When the facts of a committed node are published. A commit defers them with its delivery; they are published by an
 acknowledged settlement of the generation that owns the receipt, or of a later generation that still inherits it and
 has met the receipt, and by nothing else.
 */
module ChainFacts {
  import opened Common
  import opened Attempts
  import opened WorkflowTypes
  import opened Identity
  import opened ChainStore
  import opened Recovery
  import opened ChainEngine
  import opened ChainInvariant
  import opened QueueFrames
  import opened ChainSafety
  import opened ChainFrames
  import Sql = SqlRows

  // ---------- The facts of a node ----------

  /** The two positive facts of a committed node, in the order they are emitted. */
  function NodeFacts(env: Envelope, attempt: int, last: bool): seq<Fact> {
    [JobSucceededFact(env, attempt), ChainFact(if last then ChainCompleted else ChainAdvanced, env)]
  }

  predicate Owned(l: Chains, owners: Receipts, key: ReceiptKey) {
    && key in owners && owners[key].outcome == MemberSucceeded
    && key.workflowId in l && Position(l[key.workflowId].nodes, key.memberId).Some?
  }

  /** The facts of a node, computed from its receipt alone. */
  function OwnerFacts(l: Chains, owners: Receipts, key: ReceiptKey): seq<Fact>
    requires Owned(l, owners, key)
  {
    NodeFacts(OwnerEnvelope(l[key.workflowId], key, owners[key]), owners[key].owner.attempt,
              owners[key].aggregateCompleted)
  }

  lemma OwnerFactsOf(l: Chains, owners: Receipts, env: Envelope, attempt: int)
    requires Named(l, env) && Owned(l, owners, KeyOf(env)) && OwnerOk(l[env.chainId], KeyOf(env), owners[KeyOf(env)])
    requires owners[KeyOf(env)].owner.jobId == env.jobId && owners[KeyOf(env)].owner.attempt == attempt
    ensures OwnerFacts(l, owners, KeyOf(env)) == NodeFacts(env, attempt, owners[KeyOf(env)].aggregateCompleted)
  {
  }

  /** The generation owns the receipt, or inherits it by the recovery rule. */
  predicate Speaks(r: Receipt, d: Sql.Delivery, env: Envelope) {
    r.owner.deliveryId == d.token || OwnsRecoveredFacts(env, d.attempt, r, ProvenanceOf(d))
  }

  /** A recovered delivery meets the stored receipt of its node. */
  predicate Meets(s: System, t: string, input: Input) {
    && t in s.workers && t in s.db.deliveries && s.workers[t].phase.SuccessReceipt? && !input.storeDown
    && s.workers[t].env.chainId in s.chains && KeyOf(s.workers[t].env) in s.owners
  }

  predicate Inherits(s: System, t: string)
    requires t in s.workers && t in s.db.deliveries && KeyOf(s.workers[t].env) in s.owners
  {
    OwnsRecoveredFacts(s.workers[t].env, s.db.deliveries[t].attempt, s.owners[KeyOf(s.workers[t].env)],
                       ProvenanceOf(s.db.deliveries[t]))
  }

  /** Nothing but dispatch and settlement is left to do. */
  predicate Done(phase: Phase) {
    phase.Dispatching? || phase.Returned?
  }

  // ---------- What one step adds to a delivery's facts ----------

  lemma FreshFacts(s: System, t: string, index: nat, input: Input)
    requires Inv(s) && Advances(s, t, input)
    requires Whole(Reached(s.ledger, s.workers[t].env)) && index == IndexOf(s.ledger, s.workers[t].env)
    ensures var w, d, st := s.workers[t], s.db.deliveries[t], s.ledger[s.workers[t].env.chainId];
            AfterAdvance(w.env, d.attempt, d.recovered, AdvanceCall(s, t, input.now).result.value).1
            == NodeFacts(w.env, d.attempt, index == |st.nodes| - 1)
  {
    var env := s.workers[t].env;
    WorkerFacts(s, t);
    AdvanceEffect(s.chains[env.chainId], Lookup(s.receipts, KeyOf(env)), env.nodeId,
                  ClaimOf(env, s.db.deliveries[t].attempt, t), input.now);
  }

  lemma CommitKeepsFacts(s: System, t: string, input: Input)
    requires Advances(s, t, input)
    ensures var w, d, s' := s.workers[t], s.db.deliveries[t], WorkStep(s, t, input);
            t in s'.workers && s'.workers[t].env == w.env
            && s'.workers[t].facts
               == w.facts + AfterAdvance(w.env, d.attempt, d.recovered, AdvanceCall(s, t, input.now).result.value).1
  {
    WorkShape(s, t, input);
  }

  lemma RebuiltFacts(
      chains: Chains, receipts: Receipts, st: ChainState, env: Envelope, index: nat, d: Sql.Delivery, seen: ChainState)
    requires View(chains, st, env, index) && env.chainId in chains && Extends(seen, st) && Sound(seen)
    requires index < seen.nextIndex && KeyOf(env) in receipts && OwnerOk(st, KeyOf(env), receipts[KeyOf(env)])
    ensures AfterSuccessReceipt(chains, receipts, env, d.attempt, ProvenanceOf(d), seen).1
            == if OwnsRecoveredFacts(env, d.attempt, receipts[KeyOf(env)], ProvenanceOf(d))
               then NodeFacts(env, d.attempt, receipts[KeyOf(env)].aggregateCompleted) else []
  {
  }

  /** Meeting the receipt yields exactly the owner's facts when the delivery inherits the owner, and none otherwise. */
  lemma MeetingRebuilds(s: System, t: string, input: Input)
    requires Inv(s) && Meets(s, t, input)
    ensures var env, d := s.workers[t].env, s.db.deliveries[t];
            NextPoint(s.chains, s.receipts, s.workers[t], d, input).1
            == if Inherits(s, t) then NodeFacts(env, d.attempt, s.owners[KeyOf(env)].aggregateCompleted) else []
  {
    var env := s.workers[t].env;
    WorkerFacts(s, t);
    OwnerStored(s, env);
    RebuiltFacts(s.chains, s.receipts, s.ledger[env.chainId], env, IndexOf(s.ledger, env), s.db.deliveries[t],
                 s.workers[t].phase.seen);
  }

  /** The facts a delivery gains by its own step. */
  function Gained(s: System, t: string, input: Input): seq<Fact>
    requires t in s.workers && t in s.db.deliveries && Named(s.ledger, s.workers[t].env)
  {
    var env, d := s.workers[t].env, s.db.deliveries[t];
    if Advances(s, t, input)
    then NodeFacts(env, d.attempt, IndexOf(s.ledger, env) == |s.ledger[env.chainId].nodes| - 1)
    else if Meets(s, t, input) && Inherits(s, t)
    then NodeFacts(env, d.attempt, s.owners[KeyOf(env)].aggregateCompleted)
    else []
  }

  /** Points other than the receipt of a success add nothing. */
  lemma PointGains(s: System, t: string, input: Input)
    requires Inv(s) && t in s.workers && t in s.db.deliveries && Named(s.ledger, s.workers[t].env)
    requires var p := s.workers[t].phase; !p.Failing? && !p.Advancing? && !p.Dispatching? && !p.Returned?
    ensures NextPoint(s.chains, s.receipts, s.workers[t], s.db.deliveries[t], input).1 == Gained(s, t, input)
  {
    if Meets(s, t, input) {
      MeetingRebuilds(s, t, input);
    } else if s.workers[t].phase.SuccessReceipt? {
      NothingToMeet(s, t, input);
    }
  }

  lemma NothingToMeet(s: System, t: string, input: Input)
    requires Inv(s) && t in s.workers && t in s.db.deliveries && s.workers[t].phase.SuccessReceipt?
    requires !Meets(s, t, input)
    ensures NextPoint(s.chains, s.receipts, s.workers[t], s.db.deliveries[t], input).1 == []
  {
    assert ReceiptsOwned(s.chains, s.receipts, s.owners) by { assert Unseal(0); }
  }

  lemma PointFacts(s: System, t: string, input: Input)
    requires t in s.workers && t in s.db.deliveries
    requires var p := s.workers[t].phase; !p.Failing? && !p.Advancing? && !p.Dispatching? && !p.Returned?
    ensures var s' := WorkStep(s, t, input);
            t in s'.workers && s'.workers[t].facts
            == s.workers[t].facts + NextPoint(s.chains, s.receipts, s.workers[t], s.db.deliveries[t], input).1
  {
  }

  lemma AdvanceGains(s: System, t: string, input: Input)
    requires Inv(s) && t in s.workers && t in s.db.deliveries && Named(s.ledger, s.workers[t].env)
    requires s.workers[t].phase.Advancing?
    ensures var s' := WorkStep(s, t, input);
            t in s'.workers && s'.workers[t].facts == s.workers[t].facts + Gained(s, t, input)
  {
    WorkShape(s, t, input);
    WorkerFacts(s, t);
    if Advances(s, t, input) {
      FreshFacts(s, t, IndexOf(s.ledger, s.workers[t].env), input);
      CommitKeepsFacts(s, t, input);
    } else {
      StaleAdvance(s, t, input);
    }
  }

  lemma StaleAdvance(s: System, t: string, input: Input)
    requires t in s.workers && t in s.db.deliveries && s.workers[t].phase.Advancing? && !Advances(s, t, input)
    ensures t in AdvanceStep(s, t, input).workers
    ensures AdvanceStep(s, t, input).workers[t].facts == s.workers[t].facts + []
  {
    if !input.storeDown && s.workers[t].env.chainId in s.chains {
      AdvanceCommitFacts(s, t, AdvanceCall(s, t, input.now));
    }
  }

  /** The facts and receipts of a commit, for any transition. */
  lemma AdvanceCommitFacts(s: System, t: string, tr: Transition<AdvanceResult>)
    requires t in s.workers && t in s.db.deliveries
    ensures var s' := AdvanceCommit(s, t, tr);
            && t in s'.workers && s'.published == s.published
            && (tr.result.Err? || !tr.result.value.claimedNow ==> s'.workers[t].facts == s.workers[t].facts + [])
            && (tr.result.Ok? && tr.result.value.claimedNow ==> Done(s'.workers[t].phase))
            && (forall k :: k in s'.owners && k !in s.owners ==>
                  k == KeyOf(s.workers[t].env) && tr.written == Some(s'.owners[k]))
  {
  }

  lemma FailCommitOwners(s: System, t: string, cause: Failure, tr: Transition<FailResult>)
    requires t in s.workers && t in s.db.deliveries
    ensures var s' := FailCommit(s, t, cause, tr);
            && t in s'.workers && s'.workers[t].facts == s.workers[t].facts + [] && s'.published == s.published
            && (forall k :: k in s'.owners && k !in s.owners ==>
                  k == KeyOf(s.workers[t].env) && tr.written == Some(s'.owners[k]))
  {
  }

  lemma FailGains(s: System, t: string, input: Input)
    requires t in s.workers && t in s.db.deliveries && s.workers[t].phase.Failing?
    ensures t in WorkStep(s, t, input).workers && WorkStep(s, t, input).workers[t].facts == s.workers[t].facts + []
  {
    WorkShape(s, t, input);
    if !input.storeDown && s.workers[t].env.chainId in s.chains {
      FailCommitOwners(s, t, s.workers[t].phase.cause, FailCall(s, t, s.workers[t].phase.cause, input.now));
    }
  }

  lemma QueueGains(s: System, t: string, input: Input)
    requires t in s.workers && t in s.db.deliveries
    requires s.workers[t].phase.Dispatching? || s.workers[t].phase.Returned?
    requires t in WorkStep(s, t, input).workers
    ensures WorkStep(s, t, input).workers[t].facts == s.workers[t].facts
    ensures WorkStep(s, t, input).workers[t].phase.Returned?
  {
    WorkShape(s, t, input);
    if s.workers[t].phase.Dispatching? {
      assert s.workers[t].facts + [] == s.workers[t].facts;
    } else {
      SettleWorkers(s, t, input, s.workers[t].phase.outcome, s.workers[t].phase.tries);
    }
  }

  lemma WorkGains(s: System, t: string, input: Input)
    requires Inv(s) && t in s.workers && t in s.db.deliveries && Named(s.ledger, s.workers[t].env)
    requires t in WorkStep(s, t, input).workers
    ensures WorkStep(s, t, input).workers[t].facts == s.workers[t].facts + Gained(s, t, input)
  {
    match s.workers[t].phase {
      case Failing(_) => FailGains(s, t, input);
      case Advancing => AdvanceGains(s, t, input);
      case Dispatching(_) => QueueGains(s, t, input);
      case Returned(_, _) => QueueGains(s, t, input);
      case _ =>
        PointFacts(s, t, input);
        PointGains(s, t, input);
    }
  }

  // ---------- Who writes a receipt ----------

  lemma AdvanceWrites(st: ChainState, existing: Option<Receipt>, nodeId: string, claim: Claim, now: int)
    ensures var tr := AdvanceChain(st, existing, nodeId, claim, now);
            tr.written.Some? ==>
              && tr.written.value.owner == claim && tr.written.value.outcome == MemberSucceeded
              && tr.result.Ok? && tr.result.value.claimedNow
  {
  }

  lemma FailWrites(
      st: ChainState, existing: Option<Receipt>, nodeId: string, cause: Option<string>, claim: Claim, now: int)
    ensures var w := FailChainNode(st, existing, nodeId, cause, claim, now).written;
            w.Some? ==> w.value.owner == claim && w.value.outcome == MemberFailed
  {
  }

  /** A new receipt belongs to the acting delivery's node and is owned by its claim. */
  predicate Writes(s: System, t: string, k: ReceiptKey, r: Receipt)
    requires t in s.workers && t in s.db.deliveries
  {
    k == KeyOf(s.workers[t].env) && r.owner == ClaimOf(s.workers[t].env, s.db.deliveries[t].attempt, t)
  }

  lemma FailWriter(s: System, t: string, input: Input, cause: Failure, k: ReceiptKey)
    requires t in s.workers && t in s.db.deliveries
    requires k in FailStep(s, t, input, cause).owners && k !in s.owners
    ensures var r := FailStep(s, t, input, cause).owners[k]; Writes(s, t, k, r) && r.outcome == MemberFailed
  {
    var env := s.workers[t].env;
    if !input.storeDown && env.chainId in s.chains {
      FailCommitOwners(s, t, cause, FailCall(s, t, cause, input.now));
      FailWrites(s.chains[env.chainId], Lookup(s.receipts, KeyOf(env)), env.nodeId, Some(cause.text),
                 ClaimOf(env, s.db.deliveries[t].attempt, t), input.now);
    }
  }

  lemma AdvanceWriter(s: System, t: string, input: Input, k: ReceiptKey)
    requires t in s.workers && t in s.db.deliveries && s.workers[t].phase.Advancing?
    requires k in AdvanceStep(s, t, input).owners && k !in s.owners
    ensures Writes(s, t, k, AdvanceStep(s, t, input).owners[k]) && Advances(s, t, input)
  {
    var env := s.workers[t].env;
    if !input.storeDown && env.chainId in s.chains {
      AdvanceCommitFacts(s, t, AdvanceCall(s, t, input.now));
      AdvanceWrites(s.chains[env.chainId], Lookup(s.receipts, KeyOf(env)), env.nodeId,
                    ClaimOf(env, s.db.deliveries[t].attempt, t), input.now);
    }
  }

  lemma NewOwner(s: System, a: Action, k: ReceiptKey)
    requires Inv(s) && Enabled(s, a) && k in Do(s, a).owners && k !in s.owners
    ensures a.Work? && Writes(s, a.token, k, Do(s, a).owners[k])
    ensures Do(s, a).owners[k].outcome == MemberSucceeded ==> Advances(s, a.token, a.input)
  {
    match a {
      case Create(_, _) => assert false;
      case FailStart(chainId, cause, now) =>
        assert LedgerOk(s.chains, s.ledger) by { assert Unseal(0); }
        FailStartShape(s, chainId, cause, now);
        FailStartReady(s, chainId, cause, now);
        assert false;
      case Work(t, input) =>
        WorkShape(s, t, input);
        match s.workers[t].phase {
          case Failing(cause) => FailWriter(s, t, input, cause, k);
          case Advancing => AdvanceWriter(s, t, input, k);
          case _ => HistoryFrame(s, t, input); assert false;
        }
      case _ => QuietHistory(s, a); assert false;
    }
  }

  // ---------- The second invariant ----------

  /** The owner of a receipt is a claimed generation, and its row, while it exists, is a delivery of the owner's job. */
  predicate Claimed(db: Db, key: ReceiptKey, owner: Claim) {
    && owner.deliveryId in db.deliveries && db.deliveries[owner.deliveryId].attempt == owner.attempt
    && var id := db.deliveries[owner.deliveryId].id;
       id in db.rows ==> KeyOf(db.rows[id].payload) == key && db.rows[id].payload.jobId == owner.jobId
  }

  predicate OwnersClaimed(db: Db, owners: Receipts) {
    forall k :: k in owners ==> Claimed(db, k, owners[k].owner)
  }

  /** A delivery holds either nothing or exactly its node's facts, and the owner of a success always holds them. */
  predicate FactsExact(l: Chains, owners: Receipts, d: Sql.Delivery, w: Worker) {
    var key := KeyOf(w.env);
    && (w.facts == [] ||
        (&& Owned(l, owners, key) && w.facts == OwnerFacts(l, owners, key) && Speaks(owners[key], d, w.env)
         && Done(w.phase)))
    && (key in owners && owners[key].outcome == MemberSucceeded && owners[key].owner.deliveryId == d.token ==>
          w.facts != [])
  }

  predicate Exact(s: System) {
    && OwnersClaimed(s.db, s.owners)
    && forall t :: t in s.workers ==>
         t in s.db.deliveries && FactsExact(s.ledger, s.owners, s.db.deliveries[t], s.workers[t])
  }

  lemma ClaimedStays(a: Db, b: Db, key: ReceiptKey, owner: Claim)
    requires Sql.DeliveriesOk(a) && DbGrows(a, b) && Claimed(a, key, owner)
    ensures Claimed(b, key, owner)
  {
    assert Sql.DeliveryOk(a, owner.deliveryId);
  }

  lemma WriterClaimed(s: System, t: string, b: Db, k: ReceiptKey, r: Receipt)
    requires Inv(s) && t in s.workers && t in s.db.deliveries && Writes(s, t, k, r) && DbGrows(s.db, b)
    ensures Claimed(b, k, r.owner)
  {
    assert WorkerOk(s.ledger, s.db, t, s.workers[t]) && Sql.DeliveriesOk(s.db) by { assert Unseal(0); }
    ClaimedStays(s.db, b, k, r.owner);
  }

  lemma StepKeepsClaimed(s: System, a: Action)
    requires Inv(s) && Enabled(s, a) && OwnersClaimed(s.db, s.owners)
    ensures OwnersClaimed(Do(s, a).db, Do(s, a).owners)
  {
    ActionGrowsDb(s, a);
    StepGrows(s, a);
    assert Sql.DeliveriesOk(s.db) by { assert Unseal(0); }
    forall k | k in Do(s, a).owners ensures Claimed(Do(s, a).db, k, Do(s, a).owners[k].owner) {
      if k in s.owners {
        ClaimedStays(s.db, Do(s, a).db, k, s.owners[k].owner);
      } else {
        NewOwner(s, a, k);
        WriterClaimed(s, a.token, Do(s, a).db, k, Do(s, a).owners[k]);
      }
    }
  }

  /** Growth keeps a bystander's facts exact; a success it does not own may appear for its node. */
  lemma FactsGrow(
      l: Chains, m: Chains, owners: Receipts, owners': Receipts, d: Sql.Delivery, e: Sql.Delivery, w: Worker)
    requires LedgerGrows(l, m) && OwnersGrow(owners, owners') && SameClaim(d, e) && FactsExact(l, owners, d, w)
    requires var k := KeyOf(w.env);
             k in owners' && k !in owners && owners'[k].outcome == MemberSucceeded ==>
               owners'[k].owner.deliveryId != d.token
    ensures FactsExact(m, owners', e, w)
  {
  }

  lemma BystanderExact(s: System, a: Action, t: string)
    requires Inv(s) && Exact(s) && Enabled(s, a) && t in s.workers && t in s.db.deliveries
    requires t in Do(s, a).workers && !(a.Work? && a.token == t)
    ensures t in Do(s, a).db.deliveries
    ensures FactsExact(Do(s, a).ledger, Do(s, a).owners, Do(s, a).db.deliveries[t], Do(s, a).workers[t])
  {
    OthersUnmoved(s, a, t);
    ActionGrowsDb(s, a);
    StepGrows(s, a);
    WorkerFacts(s, t);
    var k := KeyOf(s.workers[t].env);
    if k in Do(s, a).owners && k !in s.owners {
      NewOwner(s, a, k);
    }
    FactsGrow(s.ledger, Do(s, a).ledger, s.owners, Do(s, a).owners, s.db.deliveries[t], Do(s, a).db.deliveries[t],
              s.workers[t]);
  }

  lemma ClaimExact(s: System, a: Action, t: string)
    requires Inv(s) && Exact(s) && Enabled(s, a) && t !in s.workers && t in Do(s, a).workers
    ensures t in Do(s, a).db.deliveries
    ensures FactsExact(Do(s, a).ledger, Do(s, a).owners, Do(s, a).db.deliveries[t], Do(s, a).workers[t])
  {
    WorkersComeFrom(s, a, t);
    var k := KeyOf(Do(s, a).workers[t].env);
    if k in s.owners {
      assert Claimed(s.db, k, s.owners[k].owner);
    }
  }

  lemma AdvanceCommitInstalls(s: System, t: string, tr: Transition<AdvanceResult>)
    requires t in s.workers && t in s.db.deliveries && tr.result.Ok? && tr.written.Some?
    requires KeyOf(s.workers[t].env) !in s.owners
    ensures var s' := AdvanceCommit(s, t, tr);
            && s'.ledger == s.ledger[tr.state.chainId := tr.state]
            && s'.owners == s.owners[KeyOf(s.workers[t].env) := tr.written.value]
  {
  }

  /** A commit installs the first receipt of its node, owned by the committing generation. */
  lemma CommitInstalls(s: System, t: string, input: Input, s': System)
    requires Inv(s) && Advances(s, t, input) && s' == WorkStep(s, t, input)
    ensures var env, tr := s.workers[t].env, AdvanceCall(s, t, input.now);
            && tr.written.Some? && tr.written.value.outcome == MemberSucceeded
            && tr.written.value.owner == ClaimOf(env, s.db.deliveries[t].attempt, t)
            && tr.state.chainId == env.chainId && OwnerOk(tr.state, KeyOf(env), tr.written.value)
            && s'.ledger == s.ledger[env.chainId := tr.state] && s'.owners == s.owners[KeyOf(env) := tr.written.value]
  {
    var env, claim := s.workers[t].env, ClaimOf(s.workers[t].env, s.db.deliveries[t].attempt, t);
    WorkShape(s, t, input);
    WorkerFacts(s, t);
    AdvanceReady(s, t, IndexOf(s.ledger, env), input.now);
    AdvanceEffect(s.chains[env.chainId], Lookup(s.receipts, KeyOf(env)), env.nodeId, claim, input.now);
    AdvanceWrites(s.chains[env.chainId], Lookup(s.receipts, KeyOf(env)), env.nodeId, claim, input.now);
    AdvanceCommitInstalls(s, t, AdvanceCall(s, t, input.now));
  }

  /** The facts a commit defers are the facts of the receipt it writes. */
  lemma CommitOwns(s: System, t: string, input: Input, s': System)
    requires Inv(s) && Advances(s, t, input) && s' == WorkStep(s, t, input)
    requires Whole(Reached(s.ledger, s.workers[t].env))
    ensures var env := s.workers[t].env;
            && Owned(s'.ledger, s'.owners, KeyOf(env)) && s'.owners[KeyOf(env)].owner.deliveryId == t
            && OwnerFacts(s'.ledger, s'.owners, KeyOf(env)) == Gained(s, t, input)
  {
    var env, d := s.workers[t].env, s.db.deliveries[t];
    CommitInstalls(s, t, input, s');
    WorkerFacts(s, t);
    AdvanceEffect(s.chains[env.chainId], Lookup(s.receipts, KeyOf(env)), env.nodeId, ClaimOf(env, d.attempt, t),
                  input.now);
    OwnerFactsOf(s'.ledger, s'.owners, env, d.attempt);
  }

  lemma ReceiptIsLast(
      chains: Chains, receipts: Receipts, env: Envelope, attempt: int, p: Provenance, seen: ChainState)
    ensures Done(AfterSuccessReceipt(chains, receipts, env, attempt, p, seen).0)
  {
  }

  lemma CommitExact(s: System, t: string, input: Input, s': System)
    requires Inv(s) && Exact(s) && Advances(s, t, input) && s' == WorkStep(s, t, input)
    requires t in s'.workers && t in s'.db.deliveries && SameClaim(s.db.deliveries[t], s'.db.deliveries[t])
    ensures FactsExact(s'.ledger, s'.owners, s'.db.deliveries[t], s'.workers[t])
  {
    WorkerFacts(s, t);
    CommitOwns(s, t, input, s');
    AdvanceGains(s, t, input);
    AdvanceCommitFacts(s, t, AdvanceCall(s, t, input.now));
    WorkShape(s, t, input);
    WorkActs(s, t, input);
  }

  lemma MeetExact(s: System, t: string, input: Input, s': System)
    requires Inv(s) && Exact(s) && Meets(s, t, input) && Inherits(s, t) && s' == WorkStep(s, t, input)
    requires t in s'.workers
    ensures FactsExact(s'.ledger, s'.owners, s.db.deliveries[t], s'.workers[t])
  {
    var env, d := s.workers[t].env, s.db.deliveries[t];
    WorkerFacts(s, t);
    OwnerStored(s, env);
    HistoryFrame(s, t, input);
    PointMoves(s, t, input);
    PointFacts(s, t, input);
    PointGains(s, t, input);
    ReceiptIsLast(s.chains, s.receipts, env, d.attempt, ProvenanceOf(d), s.workers[t].phase.seen);
    OwnerFactsOf(s.ledger, s.owners, env, d.attempt);
  }

  lemma OtherExact(s: System, t: string, input: Input, s': System)
    requires Inv(s) && Exact(s) && t in s.workers && s' == WorkStep(s, t, input) && t in s'.workers
    requires t in s.db.deliveries && input.jobId != ""
    requires !Advances(s, t, input) && !(Meets(s, t, input) && Inherits(s, t))
    ensures FactsExact(s'.ledger, s'.owners, s.db.deliveries[t], s'.workers[t])
  {
    WorkerFacts(s, t);
    WorkGains(s, t, input);
    WorkActs(s, t, input);
    StepGrows(s, Work(t, input));
    if Done(s.workers[t].phase) {
      QueueGains(s, t, input);
    }
    var k := KeyOf(s.workers[t].env);
    if k in s'.owners && k !in s.owners {
      NewOwner(s, Work(t, input), k);
    }
    FactsGrow(s.ledger, s'.ledger, s.owners, s'.owners, s.db.deliveries[t], s.db.deliveries[t],
              s.workers[t].(phase := s'.workers[t].phase));
  }

  lemma OwnExact(s: System, t: string, input: Input)
    requires Inv(s) && Exact(s) && Enabled(s, Work(t, input)) && t in WorkStep(s, t, input).workers
    ensures var s' := WorkStep(s, t, input);
            t in s'.db.deliveries && FactsExact(s'.ledger, s'.owners, s'.db.deliveries[t], s'.workers[t])
  {
    var s' := WorkStep(s, t, input);
    ActionGrowsDb(s, Work(t, input));
    if Advances(s, t, input) {
      CommitExact(s, t, input, s');
    } else if Meets(s, t, input) && Inherits(s, t) {
      MeetExact(s, t, input, s');
    } else {
      OtherExact(s, t, input, s');
    }
  }

  lemma StepKeepsExact(s: System, a: Action)
    requires Inv(s) && Exact(s) && Enabled(s, a)
    ensures Exact(Do(s, a))
  {
    StepKeepsClaimed(s, a);
    forall t | t in Do(s, a).workers
      ensures t in Do(s, a).db.deliveries
      ensures FactsExact(Do(s, a).ledger, Do(s, a).owners, Do(s, a).db.deliveries[t], Do(s, a).workers[t])
    {
      if t !in s.workers {
        ClaimExact(s, a, t);
      } else if a.Work? && a.token == t {
        OwnExact(s, t, a.input);
      } else {
        BystanderExact(s, a, t);
      }
    }
  }

  // ---------- Lineage ----------

  /** For a generation that owns its row, inheriting the receipt is exactly the row's lineage naming its owner. */
  lemma InheritsIffLineage(s: System, t: string)
    requires Inv(s) && Exact(s) && t in s.workers && t in s.db.deliveries && KeyOf(s.workers[t].env) in s.owners
    requires Sql.Owns(s.db.rows, s.db.deliveries[t])
    ensures Inherits(s, t) <==>
              Sql.Lineage(s.db, s.db.deliveries[t].id) == Some(s.owners[KeyOf(s.workers[t].env)].owner.deliveryId)
  {
    var d, owner := s.db.deliveries[t], s.owners[KeyOf(s.workers[t].env)].owner;
    assert Claimed(s.db, KeyOf(s.workers[t].env), owner);
    assert Sql.DeliveryOk(s.db, t) && Sql.DeliveryOk(s.db, owner.deliveryId)
           && WorkerOk(s.ledger, s.db, t, s.workers[t]) by { assert Unseal(0); }
    Sql.MarkerIsNoToken();
  }

  // ---------- Publication ----------

  /** A settlement statement is applied, and reported so, while the generation owns its row. */
  predicate Acknowledges(s: System, a: Action, t: string) {
    && a.Work? && a.token == t && t in s.workers && t in s.db.deliveries && s.workers[t].phase.Returned?
    && s.workers[t].phase.tries < Sql.FINALIZE_RETRY_COUNT && a.input.applied && a.input.acknowledged
    && Sql.Owns(s.db.rows, s.db.deliveries[t])
  }

  lemma CommitPublishes(s: System, t: string, input: Input)
    requires t in s.workers && t in s.db.deliveries && (s.workers[t].phase.Failing? || s.workers[t].phase.Advancing?)
    ensures WorkStep(s, t, input).published == s.published
  {
    WorkShape(s, t, input);
    if !input.storeDown && s.workers[t].env.chainId in s.chains {
      if s.workers[t].phase.Failing? {
        FailCommitOwners(s, t, s.workers[t].phase.cause, FailCall(s, t, s.workers[t].phase.cause, input.now));
      } else {
        AdvanceCommitFacts(s, t, AdvanceCall(s, t, input.now));
      }
    }
  }

  lemma SettlePublishes(s: System, t: string, input: Input)
    requires t in s.workers && t in s.db.deliveries && s.workers[t].phase.Returned?
    ensures WorkStep(s, t, input).published
            == if Acknowledges(s, Work(t, input), t) then s.published + Publications(s.workers[t], t) else s.published
  {
    WorkShape(s, t, input);
  }

  lemma DispatchPublishes(s: System, t: string, input: Input)
    requires t in s.workers && t in s.db.deliveries && s.workers[t].phase.Dispatching?
    ensures WorkStep(s, t, input).published == s.published
  {
    WorkShape(s, t, input);
  }

  lemma QuietPublishes(s: System, a: Action)
    requires Enabled(s, a) && !a.Work?
    ensures Do(s, a).published == s.published
  {
  }

  /** Facts are published by acknowledged settlements and by nothing else. */
  lemma StepPublishes(s: System, a: Action)
    requires Enabled(s, a)
    ensures Do(s, a).published
            == if a.Work? && Acknowledges(s, a, a.token)
               then s.published + Publications(s.workers[a.token], a.token) else s.published
  {
    if a.Work? {
      match s.workers[a.token].phase {
        case Failing(_) => CommitPublishes(s, a.token, a.input);
        case Advancing => CommitPublishes(s, a.token, a.input);
        case Dispatching(_) => DispatchPublishes(s, a.token, a.input);
        case Returned(_, _) => SettlePublishes(s, a.token, a.input);
        case _ => PointActs(s, a.token, a.input);
      }
    } else {
      QuietPublishes(s, a);
    }
  }

  lemma PublishedFact(w: Worker, t: string, fact: Fact)
    ensures Publication(w.env.chainId, w.env.nodeId, fact, t) in Publications(w, t) <==> fact in w.facts
  {
  }

  predicate Meeting(s: System, a: Action, t: string) {
    a.Work? && a.token == t && Meets(s, t, a.input)
  }

  /**
   The acknowledged settlement that announces a node: its generation owns the node's success receipt, or it has met the
   receipt and its row's lineage is still the receipt's owner.
   */
  predicate Announces(s: System, a: Action, t: string, key: ReceiptKey, met: bool) {
    && Acknowledges(s, a, t) && KeyOf(s.workers[t].env) == key
    && key in s.owners && s.owners[key].outcome == MemberSucceeded
    && var owner := s.owners[key].owner.deliveryId;
       owner == t || (met && Sql.Lineage(s.db, s.db.deliveries[t].id) == Some(owner))
  }

  /** Generation t announces the node somewhere in the run; `met` says whether it has met the receipt before. */
  ghost predicate Announced(s: System, actions: seq<Action>, t: string, key: ReceiptKey, met: bool)
    decreases |actions|
  {
    && actions != [] && Enabled(s, actions[0])
    && (|| Announces(s, actions[0], t, key, met)
        || Announced(Do(s, actions[0]), actions[1..], t, key, met || Meeting(s, actions[0], t)))
  }

  /** A delivery of a node holds its facts exactly when it owns the receipt, or inherits it and has met it. */
  predicate Keeps(owners: Receipts, d: Sql.Delivery, w: Worker, met: bool) {
    var key := KeyOf(w.env);
    && (met ==> key in owners && (OwnsRecoveredFacts(w.env, d.attempt, owners[key], ProvenanceOf(d)) ==> w.facts != []))
    && (w.facts != [] ==> key in owners && (owners[key].owner.deliveryId == d.token || met))
  }

  predicate Tracks(s: System, t: string, met: bool) {
    && (met ==> t in s.db.deliveries)
    && (t in s.workers && t in s.db.deliveries ==> Keeps(s.owners, s.db.deliveries[t], s.workers[t], met))
  }

  lemma GrowthKeeps(owners: Receipts, owners': Receipts, d: Sql.Delivery, e: Sql.Delivery, w: Worker, met: bool)
    requires OwnersGrow(owners, owners') && SameClaim(d, e) && Keeps(owners, d, w, met)
    ensures Keeps(owners', e, w, met)
  {
  }

  /** One delivery moves on, and gains facts. */
  predicate Gains(s: System, s': System, t: string, gained: seq<Fact>) {
    && t in s.workers && t in s.db.deliveries && t in s'.workers && t in s'.db.deliveries
    && SameClaim(s.db.deliveries[t], s'.db.deliveries[t]) && OwnersGrow(s.owners, s'.owners)
    && s'.workers[t].env == s.workers[t].env && s'.workers[t].facts == s.workers[t].facts + gained
  }

  lemma OwnGains(s: System, t: string, input: Input)
    requires Inv(s) && Enabled(s, Work(t, input)) && t in WorkStep(s, t, input).workers
    requires Whole(Reached(s.ledger, s.workers[t].env))
    ensures Whole(Gains(s, WorkStep(s, t, input), t, Gained(s, t, input)))
  {
    ActionGrowsDb(s, Work(t, input));
    StepGrows(s, Work(t, input));
    WorkActs(s, t, input);
    WorkGains(s, t, input);
  }

  /** What the step adds is what ownership or the met receipt calls for. */
  lemma GainKeeps(s: System, s': System, t: string, gained: seq<Fact>, met: bool, meets: bool)
    requires Gains(s, s', t, gained) && Tracks(s, t, met) && s.db.deliveries[t].token == t
    requires meets ==> KeyOf(s.workers[t].env) in s.owners && (Inherits(s, t) ==> gained != [])
    requires var key := KeyOf(s.workers[t].env);
             gained != [] && !meets ==> key in s'.owners && s'.owners[key].owner.deliveryId == t
    ensures Tracks(s', t, met || meets)
  {
  }

  lemma OwnTracks(s: System, t: string, input: Input, met: bool)
    requires Inv(s) && Exact(s) && Tracks(s, t, met) && Enabled(s, Work(t, input))
    requires t in WorkStep(s, t, input).workers
    ensures Tracks(WorkStep(s, t, input), t, met || Meets(s, t, input))
  {
    WorkerFacts(s, t);
    OwnGains(s, t, input);
    if Advances(s, t, input) {
      CommitOwns(s, t, input, WorkStep(s, t, input));
    }
    GainKeeps(s, WorkStep(s, t, input), t, Gained(s, t, input), met, Meets(s, t, input));
  }

  lemma StepTracks(s: System, a: Action, t: string, met: bool)
    requires Inv(s) && Exact(s) && Tracks(s, t, met) && Enabled(s, a)
    ensures Tracks(Do(s, a), t, met || Meeting(s, a, t))
  {
    ActionGrowsDb(s, a);
    if t in Do(s, a).workers {
      if t !in s.workers {
        WorkersComeFrom(s, a, t);
      } else if a.Work? && a.token == t {
        OwnTracks(s, t, a.input, met);
      } else {
        WorkerFacts(s, t);
        OthersUnmoved(s, a, t);
        StepGrows(s, a);
        GrowthKeeps(s.owners, Do(s, a).owners, s.db.deliveries[t], Do(s, a).db.deliveries[t], s.workers[t], met);
      }
    }
  }

  /** An acknowledged settlement publishes exactly when it announces, and then both facts of the node. */
  lemma AcknowledgementPublishes(s: System, a: Action, t: string, met: bool)
    requires Inv(s) && Exact(s) && Tracks(s, t, met) && Acknowledges(s, a, t)
    ensures var key := KeyOf(s.workers[t].env);
            if Announces(s, a, t, key, met)
            then Owned(s.ledger, s.owners, key) && s.workers[t].facts == OwnerFacts(s.ledger, s.owners, key)
            else s.workers[t].facts == []
  {
    WorkerFacts(s, t);
    assert FactsExact(s.ledger, s.owners, s.db.deliveries[t], s.workers[t]);
    if KeyOf(s.workers[t].env) in s.owners {
      InheritsIffLineage(s, t);
    }
  }

  /** The owner's facts of a node never change. */
  lemma OwnerFactsStay(s: System, a: Action, key: ReceiptKey)
    requires Inv(s) && Enabled(s, a) && Owned(s.ledger, s.owners, key)
    ensures Owned(Do(s, a).ledger, Do(s, a).owners, key)
    ensures OwnerFacts(Do(s, a).ledger, Do(s, a).owners, key) == OwnerFacts(s.ledger, s.owners, key)
  {
    StepGrows(s, a);
  }

  /** The generation has published both facts of the node. */
  predicate AllPublished(s: System, key: ReceiptKey, t: string) {
    && Owned(s.ledger, s.owners, key)
    && forall fact :: fact in OwnerFacts(s.ledger, s.owners, key) ==>
         Publication(key.workflowId, key.memberId, fact, t) in s.published
  }

  lemma AllPublishedStays(s: System, a: Action, key: ReceiptKey, t: string)
    requires Inv(s) && Enabled(s, a) && AllPublished(s, key, t)
    ensures AllPublished(Do(s, a), key, t)
  {
    OwnerFactsStay(s, a, key);
    StepPublishes(s, a);
  }

  lemma {:induction false} AllPublishedForever(
      s: System, actions: seq<Action>, end: System, key: ReceiptKey, t: string)
    requires Inv(s) && IsRun(s, actions, end) && AllPublished(s, key, t)
    ensures AllPublished(end, key, t)
    decreases |actions|
  {
    if actions != [] {
      AllPublishedStays(s, actions[0], key, t);
      StepKeepsInv(s, actions[0]);
      AllPublishedForever(Do(s, actions[0]), actions[1..], end, key, t);
    }
  }

  lemma AnnouncementPublishes(s: System, a: Action, t: string, key: ReceiptKey, met: bool)
    requires Inv(s) && Exact(s) && Tracks(s, t, met) && Enabled(s, a) && Announces(s, a, t, key, met)
    ensures AllPublished(Do(s, a), key, t)
  {
    AcknowledgementPublishes(s, a, t, met);
    OwnerFactsStay(s, a, key);
    StepPublishes(s, a);
    forall fact | fact in OwnerFacts(s.ledger, s.owners, key)
      ensures Publication(key.workflowId, key.memberId, fact, t) in Do(s, a).published
    {
      PublishedFact(s.workers[t], t, fact);
    }
  }

  lemma NewPublication(s: System, a: Action, t: string, key: ReceiptKey, fact: Fact, met: bool)
    requires Inv(s) && Exact(s) && Tracks(s, t, met) && Enabled(s, a) && key.kind == ChainKind
    requires Publication(key.workflowId, key.memberId, fact, t) in Do(s, a).published - s.published
    ensures Announces(s, a, t, key, met)
  {
    StepPublishes(s, a);
    AcknowledgementPublishes(s, a, t, met);
  }

  lemma {:induction false} PublishedIffAnnounced(
      s: System, actions: seq<Action>, end: System, t: string, key: ReceiptKey, met: bool)
    requires Inv(s) && Exact(s) && Tracks(s, t, met) && IsRun(s, actions, end) && key.kind == ChainKind
    ensures Announced(s, actions, t, key, met) ==> AllPublished(end, key, t)
    ensures forall fact :: Publication(key.workflowId, key.memberId, fact, t) in end.published - s.published ==>
              Announced(s, actions, t, key, met)
    decreases |actions|
  {
    if actions != [] {
      var a := actions[0];
      StepKeepsInv(s, a);
      StepKeepsExact(s, a);
      StepTracks(s, a, t, met);
      PublishedIffAnnounced(Do(s, a), actions[1..], end, t, key, met || Meeting(s, a, t));
      if Announces(s, a, t, key, met) {
        AnnouncementPublishes(s, a, t, key, met);
        AllPublishedForever(Do(s, a), actions[1..], end, key, t);
      }
      forall fact | Publication(key.workflowId, key.memberId, fact, t) in end.published - s.published
        ensures Announced(s, actions, t, key, met)
      {
        if Publication(key.workflowId, key.memberId, fact, t) in Do(s, a).published {
          NewPublication(s, a, t, key, fact, met);
        }
      }
    }
  }

  /**
   Exactly when the facts of a node are published. After any run, a generation has published a fact of a node if and
   only if, somewhere in the run, its settlement was applied and acknowledged while it owned its row and it was the
   owner of the node's success receipt, or it had met that receipt and its row's lineage was still the owner. It then
   published both facts of the node.
   */
  lemma FactsPublishedExactly(start: System, actions: seq<Action>, s: System, t: string, key: ReceiptKey)
    requires Initial(start) && IsRun(start, actions, s) && key.kind == ChainKind
    ensures Announced(start, actions, t, key, false) <==>
              exists fact :: Publication(key.workflowId, key.memberId, fact, t) in s.published
    ensures Announced(start, actions, t, key, false) ==> AllPublished(s, key, t)
  {
    InitialInv(start);
    PublishedIffAnnounced(start, actions, s, t, key, false);
    if Announced(start, actions, t, key, false) {
      assert OwnerFacts(s.ledger, s.owners, key)[0] in OwnerFacts(s.ledger, s.owners, key);
    }
  }

  /** A delivery that meets its node's receipt rebuilds the owner's facts if it inherits the owner, and none if not. */
  lemma MetReceiptRebuildsFacts(start: System, actions: seq<Action>, s: System, t: string, input: Input)
    requires Initial(start) && IsRun(start, actions, s) && Meets(s, t, input)
    ensures var key := KeyOf(s.workers[t].env);
            && Owned(s.ledger, s.owners, key)
            && NextPoint(s.chains, s.receipts, s.workers[t], s.db.deliveries[t], input).1
               == if Inherits(s, t) then OwnerFacts(s.ledger, s.owners, key) else []
  {
    Reachable(start, actions, s);
    WorkerFacts(s, t);
    OwnerStored(s, s.workers[t].env);
    MeetingRebuilds(s, t, input);
    if Inherits(s, t) {
      OwnerFactsOf(s.ledger, s.owners, s.workers[t].env, s.db.deliveries[t].attempt);
    }
  }

  lemma {:induction false} RunKeepsExact(s: System, actions: seq<Action>, end: System)
    requires Inv(s) && Exact(s) && IsRun(s, actions, end)
    ensures Inv(end) && Exact(end)
    decreases |actions|
  {
    if actions != [] {
      StepKeepsInv(s, actions[0]);
      StepKeepsExact(s, actions[0]);
      RunKeepsExact(Do(s, actions[0]), actions[1..], end);
    }
  }

  /**
   In every reachable state a running delivery holds no facts or exactly its node's, the owner of a success receipt
   always holds them, and a delivery that owns its row inherits the receipt exactly when the row's lineage is its owner.
   */
  lemma DeferredFactsAreExact(start: System, actions: seq<Action>, s: System, t: string)
    requires Initial(start) && IsRun(start, actions, s) && t in s.workers
    ensures t in s.db.deliveries && FactsExact(s.ledger, s.owners, s.db.deliveries[t], s.workers[t])
    ensures KeyOf(s.workers[t].env) in s.owners && Sql.Owns(s.db.rows, s.db.deliveries[t]) ==>
              (Inherits(s, t) <==>
               Sql.Lineage(s.db, s.db.deliveries[t].id) == Some(s.owners[KeyOf(s.workers[t].env)].owner.deliveryId))
  {
    InitialInv(start);
    RunKeepsExact(start, actions, s);
    if KeyOf(s.workers[t].env) in s.owners && Sql.Owns(s.db.rows, s.db.deliveries[t]) {
      InheritsIffLineage(s, t);
    }
  }
}
