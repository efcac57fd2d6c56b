/** A recovered delivery that meets an existing receipt replays its outcome and never runs the handler again. */
module ChainReplay {
  import opened Common
  import opened Attempts
  import opened WorkflowTypes
  import opened ChainStore
  import opened Recovery
  import opened ChainEngine
  import opened ChainInvariant
  import opened QueueFrames
  import opened ChainSafety
  import opened ChainFrames
  import Sql = SqlRows

  const COMMITTED_AS_FAILED := "already committed as failed"

  /** What a receipt makes of its delivery: nil, the recorded failure made permanent, or a same-attempt redelivery. */
  predicate Echoes(st: ChainState, r: Receipt, outcome: Outcome) {
    || (outcome.Errored? && outcome.failure.uncommitted)
    || (r.outcome == MemberSucceeded && outcome == Succeeded)
    || (r.outcome == MemberFailed && outcome == Permanent(if st.failure == "" then COMMITTED_AS_FAILED else st.failure))
  }

  /** The points of a delivery that is bound to echo the receipt; none of them runs or settles application work. */
  predicate Replays(st: ChainState, r: Receipt, d: Sql.Delivery, phase: Phase) {
    match phase
    case Entered => d.recovered
    case CheckFailure(plan) => plan == TrySuccess(RunHandler)
    case FailureReceipt(_, _) => true
    case CheckSuccess(plan) => r.outcome == MemberSucceeded
    case SuccessReceipt(_, _) => r.outcome == MemberSucceeded
    case Dispatching(_) => r.outcome == MemberSucceeded
    case Returned(outcome, _) => Echoes(st, r, outcome)
    case Execute => false
    case Failing(_) => false
    case Advancing => false
  }

  lemma CheckFailureReplays(chains: Chains, st: ChainState, env: Envelope, index: nat, r: Receipt, d: Sql.Delivery)
    requires View(chains, st, env, index) && OwnerOk(st, KeyOf(env), r)
    ensures Replays(st, r, d, AfterCheckFailure(chains, env, TrySuccess(RunHandler)))
  {
  }

  lemma CheckSuccessReplays(
      chains: Chains, st: ChainState, env: Envelope, index: nat, r: Receipt, d: Sql.Delivery, plan: Plan)
    requires View(chains, st, env, index) && OwnerOk(st, KeyOf(env), r) && r.outcome == MemberSucceeded
    ensures Replays(st, r, d, AfterCheckSuccess(chains, env, plan))
  {
  }

  lemma ReceiptReplays(
      chains: Chains, receipts: Receipts, st: ChainState, index: nat, w: Worker, d: Sql.Delivery, r: Receipt,
      input: Input)
    requires w.phase.FailureReceipt? || w.phase.SuccessReceipt?
    requires View(chains, st, w.env, index) && PhaseOk(st, index, d, w.phase) && Replays(st, r, d, w.phase)
    requires OwnerOk(st, KeyOf(w.env), r)
    requires w.env.chainId in chains ==> KeyOf(w.env) in receipts && receipts[KeyOf(w.env)] == r
    ensures Replays(st, r, d, NextPoint(chains, receipts, w, d, input).0)
  {
  }

  lemma PointReplays(
      chains: Chains, receipts: Receipts, st: ChainState, index: nat, w: Worker, d: Sql.Delivery, r: Receipt,
      input: Input)
    requires !w.phase.Failing? && !w.phase.Advancing? && !w.phase.Dispatching? && !w.phase.Returned?
    requires View(chains, st, w.env, index) && PhaseOk(st, index, d, w.phase) && Replays(st, r, d, w.phase)
    requires OwnerOk(st, KeyOf(w.env), r)
    requires w.env.chainId in chains ==> KeyOf(w.env) in receipts && receipts[KeyOf(w.env)] == r
    ensures Whole(Replays(st, r, d, NextPoint(chains, receipts, w, d, input).0))
  {
    match w.phase {
      case CheckFailure(_) => CheckFailureReplays(chains, st, w.env, index, r, d);
      case CheckSuccess(plan) => CheckSuccessReplays(chains, st, w.env, index, r, d, plan);
      case FailureReceipt(_, _) => ReceiptReplays(chains, receipts, st, index, w, d, r, input);
      case SuccessReceipt(_, _) => ReceiptReplays(chains, receipts, st, index, w, d, r, input);
      case Entered => {}
    }
  }

  lemma GrowthReplays(
      a: ChainState, b: ChainState, key: ReceiptKey, r: Receipt, d: Sql.Delivery, e: Sql.Delivery, phase: Phase)
    requires Extends(a, b) && OwnerOk(a, key, r) && SameClaim(d, e) && Replays(a, r, d, phase)
    ensures Replays(b, r, e, phase)
  {
  }

  /** A worker whose node has a receipt and that is bound to echo it. */
  predicate Bound(s: System, t: string) {
    && t in s.workers && t in s.db.deliveries && s.workers[t].env.chainId in s.ledger
    && KeyOf(s.workers[t].env) in s.owners
    && Replays(s.ledger[s.workers[t].env.chainId], s.owners[KeyOf(s.workers[t].env)], s.db.deliveries[t],
               s.workers[t].phase)
  }

  /** Where a bound worker's own step takes it. */
  lemma WorkReplays(s: System, t: string, input: Input)
    requires Inv(s) && Bound(s, t)
    ensures var s' := WorkStep(s, t, input);
            t in s'.workers ==>
              && s'.workers[t].env == s.workers[t].env
              && Whole(Replays(s.ledger[s.workers[t].env.chainId], s.owners[KeyOf(s.workers[t].env)],
                               s.db.deliveries[t], s'.workers[t].phase))
  {
    match s.workers[t].phase {
      case Dispatching(_) => DispatchMoves(s, t, input);
      case Returned(_, _) => SettleMoves(s, t, input);
      case Execute => assert false;
      case Failing(_) => assert false;
      case Advancing => assert false;
      case _ => PointStaysBound(s, t, input);
    }
  }

  lemma PointStaysBound(s: System, t: string, input: Input)
    requires Inv(s) && Bound(s, t)
    requires var p := s.workers[t].phase; !p.Failing? && !p.Advancing? && !p.Dispatching? && !p.Returned?
    ensures var s', env := WorkStep(s, t, input), s.workers[t].env;
            && t in s'.workers && s'.workers[t].env == env
            && Whole(Replays(s.ledger[env.chainId], s.owners[KeyOf(env)], s.db.deliveries[t], s'.workers[t].phase))
  {
    var w, d := s.workers[t], s.db.deliveries[t];
    PointMoves(s, t, input);
    WorkerFacts(s, t);
    OwnerStored(s, w.env);
    PointReplays(s.chains, s.receipts, s.ledger[w.env.chainId], IndexOf(s.ledger, w.env), w, d,
                 s.owners[KeyOf(w.env)], input);
  }

  lemma StepKeepsBound(s: System, a: Action, t: string)
    requires Inv(s) && Enabled(s, a) && Bound(s, t) && t in Do(s, a).workers
    ensures Bound(Do(s, a), t) && Do(s, a).workers[t].env == s.workers[t].env
  {
    var s', env := Do(s, a), s.workers[t].env;
    StepGrows(s, a);
    ActionGrowsDb(s, a);
    if a.Work? && a.token == t {
      WorkReplays(s, t, a.input);
    } else {
      OthersUnmoved(s, a, t);
    }
    OwnerStored(s, env);
    GrowthReplays(s.ledger[env.chainId], s'.ledger[env.chainId], KeyOf(env), s.owners[KeyOf(env)],
                  s.db.deliveries[t], s'.db.deliveries[t], s'.workers[t].phase);
  }

  lemma {:induction false} BoundForever(s: System, actions: seq<Action>, end: System, t: string)
    requires Inv(s) && IsRun(s, actions, end) && Bound(s, t)
    ensures t in end.workers ==> Bound(end, t) && end.workers[t].env == s.workers[t].env
    decreases |actions|
  {
    if actions != [] {
      var s' := Do(s, actions[0]);
      StepKeepsInv(s, actions[0]);
      if t in s'.workers {
        StepKeepsBound(s, actions[0], t);
        BoundForever(s', actions[1..], end, t);
      } else {
        ActionStates(s, actions[0]);
        GoneForever(s', actions[1..], end, t);
      }
    }
  }

  /**
   A recovered delivery that enters after its node has a receipt never runs the handler and never asks the store for
   another transition, whatever else happens meanwhile; what it returns is the receipt's outcome or a same-attempt
   redelivery.
   */
  lemma ReceiptBarsRerun(
      start: System, before: seq<Action>, s: System, later: seq<Action>, end: System, t: string)
    requires Initial(start) && IsRun(start, before, s) && IsRun(s, later, end)
    requires t in s.workers && t in s.db.deliveries && s.workers[t].phase == Entered && s.db.deliveries[t].recovered
    requires KeyOf(s.workers[t].env) in s.owners && t in end.workers
    ensures var phase := end.workers[t].phase; !phase.Execute? && !phase.Failing? && !phase.Advancing?
    ensures var env, phase := s.workers[t].env, end.workers[t].phase;
            phase.Returned? ==>
              env.chainId in end.ledger && Echoes(end.ledger[env.chainId], s.owners[KeyOf(env)], phase.outcome)
  {
    Reachable(start, before, s);
    EntersBound(s, t);
    BoundForever(s, later, end, t);
    OwnersForever(s, later, end, KeyOf(s.workers[t].env));
  }

  lemma EntersBound(s: System, t: string)
    requires Inv(s) && t in s.workers && t in s.db.deliveries && s.workers[t].phase == Entered
    requires s.db.deliveries[t].recovered && KeyOf(s.workers[t].env) in s.owners
    ensures Bound(s, t)
  {
    WorkerFacts(s, t);
  }

  lemma {:induction false} OwnersForever(s: System, actions: seq<Action>, end: System, key: ReceiptKey)
    requires Inv(s) && IsRun(s, actions, end) && key in s.owners
    ensures key in end.owners && end.owners[key] == s.owners[key]
    decreases |actions|
  {
    if actions != [] {
      StepGrows(s, actions[0]);
      StepKeepsInv(s, actions[0]);
      OwnersForever(Do(s, actions[0]), actions[1..], end, key);
    }
  }
}
