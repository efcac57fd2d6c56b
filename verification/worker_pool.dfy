/**
 The in-process worker pool. Its lock-protected fields are an object; dispatchers, background senders, delayed timers,
 workers and the drain are interleaved steps around it, one step for each critical section or channel operation.
 */
module WorkerPool {
  import opened Common

  // ---------- The lock-protected fields ----------

  /** The job channel: not created yet, open, or closed by the drain. */
  datatype Channel = Unopened | Open | Shut

  datatype Gate = Gate(shuttingDown: bool, channel: Channel, pending: int, idleOpen: bool)

  /** Admission of one job; `owns` tells whether its context carries a live continuation permit. */
  function ReserveGate(g: Gate, owns: bool): (Gate, bool) {
    if g.shuttingDown && !owns then (g, false)
    else if g.channel != Open && g.shuttingDown then (g, false)
    else (g.(channel := Open, pending := g.pending + 1, idleOpen := g.idleOpen || g.pending == 0), true)
  }

  function FinishGate(g: Gate): Gate {
    g.(pending := g.pending - 1, idleOpen := g.idleOpen && g.pending != 1)
  }

  /** The drain closes the channel once nothing is outstanding. */
  function CloseGate(g: Gate): (Gate, bool) {
    if g.pending != 0 then (g, false)
    else (g.(channel := if g.channel == Open then Shut else g.channel), true)
  }

  class LocalQueue {
    var shuttingDown: bool
    var channel: Channel
    var workPending: int
    var workIdle: bool

    ghost function View(): Gate
      reads this
    {
      Gate(shuttingDown, channel, workPending, workIdle)
    }

    constructor ()
      ensures View() == Gate(false, Unopened, 0, false)
    {
      shuttingDown, channel, workPending, workIdle := false, Unopened, 0, false;
    }

    method StartWorkers()
      modifies this
      ensures View() == if old(channel) == Open || old(shuttingDown) then old(View()) else old(View()).(channel := Open)
    {
      if channel == Open || shuttingDown {
        return;
      }
      channel := Open;
    }

    method Reserve(owns: bool) returns (ok: bool)
      modifies this
      ensures (View(), ok) == ReserveGate(old(View()), owns)
    {
      if shuttingDown && !owns {
        return false;
      }
      if channel != Open {
        if shuttingDown {
          return false;
        }
        StartWorkers();
      }
      if workPending == 0 {
        workIdle := true;
      }
      workPending := workPending + 1;
      return true;
    }

    method FinishQueuedWork()
      modifies this
      ensures View() == FinishGate(old(View()))
    {
      workPending := workPending - 1;
      if workPending == 0 && workIdle {
        workIdle := false;
      }
    }

    method CloseIfIdle() returns (closed: bool)
      modifies this
      ensures (View(), closed) == CloseGate(old(View()))
    {
      if workPending == 0 {
        if channel == Open {
          channel := Shut;
        }
        return true;
      }
      return false;
    }
  }

  // ---------- Interleaved steps ----------

  /** Where a reserved job is. A blocked sender is cancellable only when its context can be cancelled. */
  datatype Place =
    | Reserved
    | Delayed
    | Blocked(cancellable: bool)
    | Background
    | Queued
    | Running(permit: bool)

  datatype Pool = Pool(
    gate: Gate,
    capacity: nat,
    jobs: map<string, Place>,
    buffer: seq<string>,
    known: set<string>,
    accepted: set<string>,
    ran: set<string>)

  datatype Action =
    | Dispatch(job: string, parent: Option<string>, delayed: bool)
    | Offer(job: string, owns: bool, cancellable: bool)
    | Send(job: string)
    | Cancel(job: string)
    | Receive
    | Permit(job: string, live: bool)
    | Finish(job: string)
    | Start
    | Shutdown
    | Close

  predicate HasPermit(s: Pool, parent: Option<string>) {
    parent.Some? && parent.value in s.jobs && s.jobs[parent.value] == Running(true)
  }

  predicate Enabled(s: Pool, a: Action) {
    match a
    case Dispatch(job, _, _) => job !in s.known
    case Offer(job, _, _) => job in s.jobs && (s.jobs[job].Reserved? || s.jobs[job].Delayed?)
    case Send(job) => job in s.jobs && (s.jobs[job].Blocked? || s.jobs[job].Background?) && |s.buffer| < s.capacity
    case Cancel(job) => job in s.jobs && s.jobs[job] == Blocked(true)
    case Receive => s.buffer != [] && s.buffer[0] in s.jobs
    case Permit(job, _) => job in s.jobs && s.jobs[job].Running?
    case Finish(job) => job in s.jobs && s.jobs[job] == Running(false)
    case Start => true
    case Shutdown => true
    case Close => s.gate.shuttingDown
  }

  function Admit(s: Pool, job: string, parent: Option<string>, delayed: bool): Pool {
    var (gate, ok) := ReserveGate(s.gate, HasPermit(s, parent));
    if !ok then s.(known := s.known + {job})
    else s.(gate := gate, known := s.known + {job}, jobs := s.jobs[job := if delayed then Delayed else Reserved],
            accepted := if delayed then s.accepted + {job} else s.accepted)
  }

  /**
   A permit holder never blocks: it sends at once or hands the job to a background sender. Delayed jobs cannot be
   cancelled.
   */
  function OfferJob(s: Pool, job: string, owns: bool, cancellable: bool): Pool
    requires job in s.jobs
  {
    if owns && |s.buffer| < s.capacity
    then s.(jobs := s.jobs[job := Queued], buffer := s.buffer + [job], accepted := s.accepted + {job})
    else if owns then s.(jobs := s.jobs[job := Background], accepted := s.accepted + {job})
    else s.(jobs := s.jobs[job := Blocked(cancellable && !s.jobs[job].Delayed?)])
  }

  function Release(s: Pool, job: string): Pool {
    s.(jobs := s.jobs - {job}, gate := FinishGate(s.gate))
  }

  function Do(s: Pool, a: Action): Pool
    requires Enabled(s, a)
  {
    match a
    case Dispatch(job, parent, delayed) => Admit(s, job, parent, delayed)
    case Offer(job, owns, cancellable) => OfferJob(s, job, owns, cancellable)
    case Send(job) => s.(jobs := s.jobs[job := Queued], buffer := s.buffer + [job], accepted := s.accepted + {job})
    case Cancel(job) => Release(s, job)
    case Receive => s.(jobs := s.jobs[s.buffer[0] := Running(false)], buffer := s.buffer[1..])
    case Permit(job, live) => s.(jobs := s.jobs[job := Running(live)])
    case Finish(job) => Release(s, job).(ran := s.ran + {job})
    case Start => if s.gate.channel == Open || s.gate.shuttingDown then s else s.(gate := s.gate.(channel := Open))
    case Shutdown => s.(gate := s.gate.(shuttingDown := true))
    case Close => s.(gate := CloseGate(s.gate).0)
  }

  ghost predicate IsRun(s: Pool, actions: seq<Action>, end: Pool)
    decreases |actions|
  {
    if actions == [] then end == s
    else Enabled(s, actions[0]) && IsRun(Do(s, actions[0]), actions[1..], end)
  }

  predicate Initial(s: Pool) {
    && s.gate == Gate(false, Unopened, 0, false) && s.capacity > 0
    && s.jobs == map[] && s.buffer == [] && s.known == {} && s.accepted == {} && s.ran == {}
  }

  // ---------- The invariant ----------

  predicate InPlace(s: Pool, place: Place, job: string) {
    match place
    case Queued => job in s.buffer && job in s.accepted
    case Reserved => job !in s.accepted
    case Blocked(cancellable) => cancellable ==> job !in s.accepted
    case _ => job in s.accepted
  }

  predicate BufferOk(s: Pool) {
    && (forall i :: 0 <= i < |s.buffer| ==> s.buffer[i] in s.jobs && s.jobs[s.buffer[i]] == Queued)
    && (forall i, j :: 0 <= i < j < |s.buffer| ==> s.buffer[i] != s.buffer[j])
  }

  predicate Inv(s: Pool) {
    && s.gate.pending == |s.jobs| && (s.gate.idleOpen <==> s.gate.pending > 0)
    && (s.gate.channel == Shut ==> s.gate.shuttingDown && |s.jobs| == 0)
    && (s.gate.channel == Unopened ==> |s.jobs| == 0)
    && (forall job :: job in s.jobs ==> job in s.known && job !in s.ran && InPlace(s, s.jobs[job], job))
    && (forall job :: job in s.accepted ==> job in s.known && (job in s.jobs || job in s.ran))
    && (forall job :: job in s.ran ==> job in s.accepted)
    && BufferOk(s)
  }

  lemma JobsCounted(m: map<string, Place>, k: string)
    requires k in m
    ensures |m| > 0
  {
  }

  lemma SizeAdd(m: map<string, Place>, k: string, v: Place)
    ensures |m[k := v]| == if k in m then |m| else |m| + 1
  {
  }

  lemma AdmitKeeps(s: Pool, job: string, parent: Option<string>, delayed: bool)
    requires Inv(s) && job !in s.known
    ensures Inv(Admit(s, job, parent, delayed))
  {
    SizeAdd(s.jobs, job, if delayed then Delayed else Reserved);
  }

  lemma OfferKeeps(s: Pool, job: string, owns: bool, cancellable: bool)
    requires Inv(s) && Enabled(s, Offer(job, owns, cancellable))
    ensures Inv(OfferJob(s, job, owns, cancellable))
  {
    SizeAdd(s.jobs, job, OfferJob(s, job, owns, cancellable).jobs[job]);
  }

  lemma SendKeeps(s: Pool, job: string)
    requires Inv(s) && Enabled(s, Send(job))
    ensures Inv(Do(s, Send(job)))
  {
  }

  lemma ReceiveKeeps(s: Pool)
    requires Inv(s) && Enabled(s, Receive)
    ensures Inv(Do(s, Receive))
  {
  }

  lemma ReleaseKeeps(s: Pool, job: string, finished: bool)
    requires Inv(s) && job in s.jobs && s.jobs[job] != Queued && (finished <==> job in s.accepted)
    ensures Inv(if finished then Release(s, job).(ran := s.ran + {job}) else Release(s, job))
  {
  }

  lemma PermitKeeps(s: Pool, job: string, live: bool)
    requires Inv(s) && Enabled(s, Permit(job, live))
    ensures Inv(Do(s, Permit(job, live)))
  {
  }

  lemma StepKeepsInv(s: Pool, a: Action)
    requires Inv(s) && Enabled(s, a)
    ensures Inv(Do(s, a))
  {
    match a {
      case Dispatch(job, parent, delayed) => AdmitKeeps(s, job, parent, delayed);
      case Offer(job, owns, cancellable) => OfferKeeps(s, job, owns, cancellable);
      case Send(job) => SendKeeps(s, job);
      case Cancel(job) => ReleaseKeeps(s, job, false);
      case Receive => ReceiveKeeps(s);
      case Permit(job, live) => PermitKeeps(s, job, live);
      case Finish(job) => ReleaseKeeps(s, job, true);
      case Start => {}
      case Shutdown => {}
      case Close => {}
    }
  }

  lemma {:induction false} RunKeepsInv(s: Pool, actions: seq<Action>, end: Pool)
    requires Inv(s) && IsRun(s, actions, end)
    ensures Inv(end)
    decreases |actions|
  {
    if actions != [] {
      StepKeepsInv(s, actions[0]);
      RunKeepsInv(Do(s, actions[0]), actions[1..], end);
    }
  }

  // ---------- Main results ----------

  /** The outstanding reservations are exactly the jobs somewhere between admission and completion. */
  lemma ReservationsAreJobs(start: Pool, actions: seq<Action>, s: Pool)
    requires Initial(start) && IsRun(start, actions, s)
    ensures s.gate.pending == |s.jobs| && (s.gate.idleOpen <==> s.gate.pending > 0)
  {
    RunKeepsInv(start, actions, s);
  }

  /** Whoever may still send, the channel is open. */
  lemma NoSendOnClosedChannel(start: Pool, actions: seq<Action>, s: Pool, job: string)
    requires Initial(start) && IsRun(start, actions, s) && job in s.jobs
    ensures s.gate.channel == Open
  {
    RunKeepsInv(start, actions, s);
    JobsCounted(s.jobs, job);
  }

  lemma IdleStep(s: Pool, a: Action)
    requires s.jobs == map[] && s.buffer == [] && s.gate.shuttingDown && s.gate.pending == 0 && Enabled(s, a)
    ensures var s' := Do(s, a);
            s'.gate.shuttingDown && s'.gate.pending == 0 && s'.accepted == s.accepted && s'.ran == s.ran
  {
  }

  /** Once idle during shutdown, always idle: no permit is left to admit another job. */
  lemma {:induction false} IdleIsStable(s: Pool, actions: seq<Action>, end: Pool)
    requires Inv(s) && IsRun(s, actions, end) && s.gate.shuttingDown && s.gate.pending == 0
    ensures end.gate.shuttingDown && end.gate.pending == 0 && end.accepted == s.accepted && end.ran == s.ran
    decreases |actions|
  {
    if actions != [] {
      EmptyJobs(s);
      IdleStep(s, actions[0]);
      StepKeepsInv(s, actions[0]);
      IdleIsStable(Do(s, actions[0]), actions[1..], end);
    }
  }

  lemma EmptyJobs(s: Pool)
    requires Inv(s) && s.gate.pending == 0
    ensures s.jobs == map[] && s.buffer == []
  {
    if s.buffer != [] {
      JobsCounted(s.jobs, s.buffer[0]);
    }
    assert |s.jobs.Keys| == |s.jobs|;
  }

  /**
   A drain that returns nil, whether it closed the channel or the pool never opened one, returns after every accepted
   job ran, and nothing is accepted afterwards.
   */
  lemma DrainedMeansEverythingRan(start: Pool, actions: seq<Action>, s: Pool, later: seq<Action>, end: Pool)
    requires Initial(start) && IsRun(start, actions, s) && s.gate.shuttingDown && CloseGate(s.gate).1
    requires IsRun(s, later, end)
    ensures s.accepted <= s.ran && end.accepted == s.accepted && end.jobs == map[]
  {
    RunKeepsInv(start, actions, s);
    EmptyJobs(s);
    IdleIsStable(s, later, end);
    RunKeepsInv(s, later, end);
    EmptyJobs(end);
  }

  /** A closed channel is the result of such a drain. */
  lemma ShutMeansDrained(start: Pool, actions: seq<Action>, s: Pool)
    requires Initial(start) && IsRun(start, actions, s) && s.gate.channel == Shut
    ensures s.gate.shuttingDown && CloseGate(s.gate).1
  {
    RunKeepsInv(start, actions, s);
  }

  /** Only a job whose dispatcher was never told of its acceptance can be withdrawn. */
  lemma AcceptedJobsAreNotCancelled(start: Pool, actions: seq<Action>, s: Pool, job: string)
    requires Initial(start) && IsRun(start, actions, s) && Enabled(s, Cancel(job))
    ensures job !in s.accepted
  {
    RunKeepsInv(start, actions, s);
  }
}
