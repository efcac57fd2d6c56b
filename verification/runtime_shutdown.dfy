/**
 The lifecycle of a queue runtime: operation leases, worker start, and shutdown in its stages. Every step is one
 critical section of the lifecycle mutex, or one wait that ends between two of them.
 */
module RuntimeShutdown {
  import opened Common

  // ---------- Operation leases ----------

  /** Active leases, and the generation of the idle channel that closes when the last of them is released. */
  datatype Leases = Leases(active: int, idle: Option<nat>, generations: nat)

  function Acquired(l: Leases): Leases {
    if l.active == 0 then Leases(1, Some(l.generations), l.generations + 1) else l.(active := l.active + 1)
  }

  function Released(l: Leases): Leases {
    if l.active == 1 then l.(active := 0, idle := None) else l.(active := l.active - 1)
  }

  /** The idle channel exists exactly while leases are active. */
  predicate LeasesOk(l: Leases) {
    && l.active >= 0 && (l.idle.Some? <==> l.active > 0)
    && (l.idle.Some? ==> l.idle.value < l.generations)
  }

  class OperationState {
    var active: int
    var idle: Option<nat>
    var generations: nat

    ghost function View(): Leases
      reads this
    {
      Leases(active, idle, generations)
    }

    constructor ()
      ensures View() == Leases(0, None, 0)
    {
      active, idle, generations := 0, None, 0;
    }

    method Acquire()
      requires LeasesOk(View())
      modifies this
      ensures LeasesOk(View()) && View() == Acquired(old(View()))
    {
      if active == 0 {
        idle := Some(generations);
        generations := generations + 1;
      }
      active := active + 1;
    }

    /** Returns whether the final lease ended and its idle channel was closed. */
    method Release() returns (last: bool)
      requires LeasesOk(View()) && active > 0
      modifies this
      ensures LeasesOk(View()) && View() == Released(old(View())) && last == (old(active) == 1)
    {
      active := active - 1;
      last := active == 0 && idle.Some?;
      if last {
        idle := None;
      }
    }
  }

  // ---------- The lifecycle ----------

  /**
   External runtimes construct their worker during a start and publish it before they start it, so it may issue permits
   while the start is in progress; a drained worker issues no permit again.
   */
  datatype Worker = Absent | Present | Drained

  /** The stages of one shutdown attempt; the waits hold the idle generation they snapshotted. */
  datatype Stage = FirstWait(idle: Option<nat>) | Draining | SecondWait(idle: Option<nat>) | Closing

  /** A Shutdown call that has not yet begun or joined an attempt, with the number of calls it was made from. */
  datatype Caller = Entering(depth: nat) | AwaitingStart(depth: nat, attempt: nat)

  /** `starts` numbers the start attempts; the latest one is in progress while `starting` holds. */
  datatype Runtime = Runtime(
    draining: bool,
    closed: bool,
    started: bool,
    starting: bool,
    starts: nat,
    callers: map<nat, Caller>,
    stage: Option<Stage>,
    leases: Leases,
    permits: nat,
    worker: Worker,
    innerCalled: bool,
    grants: nat)

  datatype Action =
    | Acquire(allowContinuation: bool, owns: bool)
    | Release
    | GrantPermit
    | DropPermit
    | StartBegin
    | PublishWorker
    | StartEnd(ok: bool, built: bool)
    | CallShutdown(caller: nat)
    | ShutdownEnter(caller: nat)
    | StartAwaited(caller: nat)
    | GiveUp(caller: nat)
    | Proceed
    | DrainReturns
    | StageFails
    | InnerReturns(ok: bool)

  /** A wait on an idle channel is over when that channel was nil or has been closed. */
  predicate WaitOver(s: Runtime, idle: Option<nat>) {
    idle.None? || s.leases.idle != idle
  }

  predicate Refuses(s: Runtime, allowContinuation: bool, owns: bool) {
    s.closed || (s.draining && (!allowContinuation || !owns))
  }

  /**
   Permits are issued only by a worker that has not drained, and a worker drain returns nil only when none is left:
   the contract of every backend's DrainWorkers.
   */
  predicate Enabled(s: Runtime, a: Action) {
    match a
    case Acquire(_, owns) => owns ==> s.permits > 0
    case Release => s.leases.active > 0
    case GrantPermit => s.worker == Present
    case DropPermit => s.permits > 0
    case StartBegin => true
    case PublishWorker => s.starting && s.worker == Absent
    case StartEnd(ok, _) => s.starting && (ok ==> s.worker == Present)
    case CallShutdown(caller) => caller !in s.callers
    case ShutdownEnter(caller) => caller in s.callers && s.callers[caller].Entering?
    case StartAwaited(caller) =>
      && caller in s.callers && s.callers[caller].AwaitingStart?
      && !(s.starting && s.starts == s.callers[caller].attempt)
    case GiveUp(caller) => caller in s.callers && s.callers[caller].AwaitingStart?
    case Proceed =>
      && s.stage.Some? && (s.stage.value.FirstWait? || s.stage.value.SecondWait?)
      && WaitOver(s, s.stage.value.idle)
    case DrainReturns => s.stage == Some(Draining) && s.permits == 0
    case StageFails => s.stage.Some? && s.stage != Some(Closing)
    case InnerReturns(_) => s.stage == Some(Closing)
  }

  function Do(s: Runtime, a: Action): Runtime
    requires Enabled(s, a)
  {
    match a
    case Acquire(allowContinuation, owns) =>
      if Refuses(s, allowContinuation, owns) then s
      else s.(leases := Acquired(s.leases), grants := s.grants + 1)
    case Release => s.(leases := Released(s.leases))
    case GrantPermit => s.(permits := s.permits + 1)
    case DropPermit => s.(permits := s.permits - 1)
    case StartBegin =>
      if s.closed || s.draining || s.started || s.starting then s
      else s.(starting := true, starts := s.starts + 1)
    case PublishWorker => s.(worker := Present)
    case StartEnd(ok, built) =>
      s.(starting := false, started := s.started || ok,
         worker := if s.worker == Absent && built then Present else s.worker)
    case CallShutdown(caller) => s.(callers := s.callers[caller := Entering(0)])
    case ShutdownEnter(caller) =>
      if s.starting
      then s.(draining := true, callers := s.callers[caller := AwaitingStart(s.callers[caller].depth, s.starts)])
      else if s.stage.Some? || s.closed then s.(callers := s.callers - {caller})
      else s.(draining := true, stage := Some(FirstWait(s.leases.idle)), callers := s.callers - {caller})
    case StartAwaited(caller) => s.(callers := s.callers[caller := Entering(s.callers[caller].depth + 1)])
    case GiveUp(caller) => s.(callers := s.callers - {caller})
    case Proceed =>
      (match s.stage.value
       case FirstWait(_) =>
         if s.worker == Present then s.(stage := Some(Draining)) else s.(stage := Some(SecondWait(s.leases.idle)))
       case _ => s.(stage := Some(Closing), innerCalled := true))
    case DrainReturns => s.(worker := Drained, stage := Some(SecondWait(s.leases.idle)))
    case StageFails => s.(stage := None)
    case InnerReturns(ok) =>
      if ok then s.(stage := None, draining := false, closed := true, started := false) else s.(stage := None)
  }

  ghost predicate IsRun(s: Runtime, actions: seq<Action>, end: Runtime)
    decreases |actions|
  {
    if actions == [] then end == s
    else Enabled(s, actions[0]) && IsRun(Do(s, actions[0]), actions[1..], end)
  }

  /** A native runtime owns its worker from the beginning; an external one does not. */
  predicate Initial(s: Runtime) {
    && !s.draining && !s.closed && !s.started && !s.starting && s.stage == None && s.callers == map[]
    && s.leases == Leases(0, None, 0) && s.permits == 0 && s.worker != Drained && !s.innerCalled && s.grants == 0
  }

  // ---------- The invariant ----------

  /** No permit is live and none will be: the worker drained, or the gate closed before one existed. */
  predicate Quiet(s: Runtime) {
    s.permits == 0 && s.worker != Present && !s.starting && (s.draining || s.closed)
  }

  predicate Inv(s: Runtime) {
    && LeasesOk(s.leases)
    && (s.permits > 0 ==> s.worker == Present)
    && (s.worker == Drained ==> s.draining || s.closed)
    && (s.stage.Some? ==> s.draining && !s.starting)
    && (s.closed ==> s.innerCalled)
    && (s.innerCalled ==> Quiet(s) && s.leases.active == 0)
    && (s.stage.Some? && s.stage.value.SecondWait? ==>
          Quiet(s) && (s.leases.idle.None? || s.leases.idle == s.stage.value.idle))
    && (s.stage == Some(Closing) ==> s.innerCalled)
  }

  lemma StepKeepsInv(s: Runtime, a: Action)
    requires Inv(s) && Enabled(s, a)
    ensures Inv(Do(s, a))
  {
  }

  lemma {:induction false} RunKeepsInv(s: Runtime, actions: seq<Action>, end: Runtime)
    requires Inv(s) && IsRun(s, actions, end)
    ensures Inv(end)
    decreases |actions|
  {
    if actions != [] {
      StepKeepsInv(s, actions[0]);
      RunKeepsInv(Do(s, actions[0]), actions[1..], end);
    }
  }

  // ---------- Main results ----------

  /** The backend's resources are closed only with no lease active and no permit live. */
  lemma InnerShutdownIsExclusive(start: Runtime, actions: seq<Action>, s: Runtime)
    requires Initial(start) && IsRun(start, actions, s)
    ensures s.stage == Some(Closing) || s.closed ==> s.leases.active == 0 && s.permits == 0
    ensures s.leases.idle.Some? <==> s.leases.active > 0
  {
    RunKeepsInv(start, actions, s);
  }

  lemma QuietStep(s: Runtime, a: Action)
    requires Inv(s) && Enabled(s, a) && s.innerCalled
    ensures Do(s, a).innerCalled && Do(s, a).grants == s.grants && Do(s, a).leases == s.leases
  {
  }

  /** After that point no lease is ever granted again, even when closing the resources failed and is retried. */
  lemma {:induction false} NoLeaseAfterClosing(s: Runtime, actions: seq<Action>, end: Runtime)
    requires Inv(s) && s.innerCalled && IsRun(s, actions, end)
    ensures end.innerCalled && end.grants == s.grants && end.leases.active == 0
    decreases |actions|
  {
    if actions != [] {
      QuietStep(s, actions[0]);
      StepKeepsInv(s, actions[0]);
      NoLeaseAfterClosing(Do(s, actions[0]), actions[1..], end);
    }
  }

  /** The drain gate never reopens: outside callers are refused from the first shutdown call on. */
  lemma {:induction false} GateNeverReopens(s: Runtime, actions: seq<Action>, end: Runtime)
    requires IsRun(s, actions, end) && (s.draining || s.closed)
    ensures (end.draining || end.closed) && Refuses(end, false, false) && Refuses(end, true, false)
    decreases |actions|
  {
    if actions != [] {
      GateNeverReopens(Do(s, actions[0]), actions[1..], end);
    }
  }

  // ---------- Recursion ----------

  /** A call waits only from the outermost level; one that was made again finds no start in progress, ever. */
  predicate CallerOk(s: Runtime, c: Caller) {
    match c
    case Entering(depth) => depth == 0 || (depth == 1 && (s.draining || s.closed) && !s.starting)
    case AwaitingStart(depth, attempt) => depth == 0 && (s.draining || s.closed) && attempt == s.starts
  }

  predicate CallersOk(s: Runtime) {
    forall c :: c in s.callers ==> CallerOk(s, s.callers[c])
  }

  lemma StepKeepsCallers(s: Runtime, a: Action)
    requires Enabled(s, a) && CallersOk(s)
    ensures CallersOk(Do(s, a))
  {
    forall c | c in Do(s, a).callers ensures CallerOk(Do(s, a), Do(s, a).callers[c]) {
      if c in s.callers {
        assert CallerOk(s, s.callers[c]);
      }
    }
  }

  lemma {:induction false} RunKeepsCallers(s: Runtime, actions: seq<Action>, end: Runtime)
    requires CallersOk(s) && IsRun(s, actions, end)
    ensures CallersOk(end)
    decreases |actions|
  {
    if actions != [] {
      StepKeepsCallers(s, actions[0]);
      RunKeepsCallers(Do(s, actions[0]), actions[1..], end);
    }
  }

  /**
   Shutdown calls itself at most once, in any run and however many calls are made: a call waits for a start only at the
   outermost level, and the call it makes after that wait finds no start in progress.
   */
  lemma RecursionIsShallow(start: Runtime, actions: seq<Action>, s: Runtime, caller: nat)
    requires Initial(start) && IsRun(start, actions, s) && caller in s.callers
    ensures s.callers[caller].depth <= 1
    ensures s.callers[caller].depth == 1 ==> s.callers[caller].Entering? && !s.starting
  {
    RunKeepsCallers(start, actions, s);
  }
}
