/**
 Parts shared by the concrete runs that show where a guarantee ends: one chain with one or two nodes, three claim
 tokens, the default lease, and runs restricted to one kind of fault.
 */
module ChainWitness {
  import opened Common
  import opened Attempts
  import opened WorkflowTypes
  import opened ChainStore
  import opened Recovery
  import opened ChainEngine
  import Sql = SqlRows

  const JOB := StoredJob("job", "", JobOptions("", 0, 0, 3, 0, 0))
  const FIRST := ChainNode("a", JOB)
  const SECOND := ChainNode("b", JOB)
  const DELIVERY := Envelope("d", "j", "c", "", "a", JOB)
  const KEY := ReceiptKey(ChainKind, "c", "a")

  function Token(c: char): string {
    seq(32, i => c)
  }

  const T1 := Token('1')
  const T2 := Token('2')
  const T3 := Token('3')

  lemma Tokens()
    ensures Sql.ValidToken(T1) && Sql.ValidToken(T2) && Sql.ValidToken(T3)
    ensures T1 != T2 && T1 != T3 && T2 != T3 && T1 != Sql.RECOVERY_MARKER && T2 != Sql.RECOVERY_MARKER
  {
    assert T1[0] == '1' && T2[0] == '2' && T3[0] == '3';
  }

  /** The default grace of two seconds and lease of five minutes, and three moments further apart than the lease. */
  const LEASE := Sql.LeaseConfig(2000, 300_000)
  const EARLY := 1000
  const LATER := 400_000
  const LAST := 800_000

  /** One worker step: the store answers, and the handler, if it runs, returns the given outcome. */
  function StepWith(token: string, now: int, outcome: Outcome, acknowledged: bool): Action {
    Work(token, Input(now, false, outcome, Rejected, "k", true, acknowledged))
  }

  function Step(token: string, now: int, outcome: Outcome): Action {
    StepWith(token, now, outcome, true)
  }

  // ---------- States ----------

  function Row(state: Sql.RowState, attempt: nat, availableAt: int, startedAt: Option<int>, token: Option<string>)
    : Sql.Row<Envelope>
  {
    Sql.Row(state, attempt, 3, 0, None, availableAt, startedAt, token, DELIVERY)
  }

  /** A stored chain with its receipts and one row. */
  function At(st: ChainState, receipts: map<ReceiptKey, Receipt>, row: Sql.Row<Envelope>,
              deliveries: map<string, Sql.Delivery>, settled: map<string, nat>, workers: map<string, Worker>): System
  {
    System(map["c" := st], receipts, Sql.Db(map[0 := row], 1, deliveries, settled), workers, map[], map["c" := st],
           receipts, {})
  }

  const NONE: seq<Fact> := []

  function W(phase: Phase): Worker {
    Worker(DELIVERY, NONE, phase)
  }

  const EMPTY := System(map[], map[], Sql.Db(map[], 0, map[], map[]), map[], map[], map[], map[], {})

  function Queued(record: ChainRecord): System {
    At(NewChain(record, 0), map[], Row(Sql.Pending, 0, 0, None, None), map[], map[], map[])
  }

  const D1 := Sql.Delivery(0, T1, 0, 3, 0, false, "", false)

  /** The first delivery of the chain, at some point while it owns the row. */
  function Held1(record: ChainRecord, phase: Phase): System {
    At(NewChain(record, 0), map[], Row(Sql.Processing, 0, 0, Some(EARLY), Some(T1)), map[T1 := D1], map[],
       map[T1 := W(phase)])
  }

  predicate OurRecord(record: ChainRecord) {
    && record.chainId == "c" && record.dispatchId == "d" && NodesOk(record.nodes) && record.nodes[0] == FIRST
  }

  // ---------- Steps ----------

  predicate Leads(s: System, a: Action, s': System) {
    Enabled(s, a) && Do(s, a) == s'
  }

  lemma Opening(record: ChainRecord)
    requires OurRecord(record)
    ensures Leads(EMPTY, Create(record, 0), Do(EMPTY, Create(record, 0)))
    ensures Leads(Do(EMPTY, Create(record, 0)), Start("c", "j", Accepted, 0), Queued(record))
  {
  }

  lemma FirstDelivery(record: ChainRecord)
    requires OurRecord(record)
    ensures Leads(Queued(record), ClaimRow(0, T1, EARLY), Held1(record, Entered))
    ensures Leads(Held1(record, Entered), Step(T1, EARLY, Succeeded), Held1(record, Execute))
    ensures Leads(Held1(record, Execute), Step(T1, EARLY, Succeeded), Held1(record, Advancing))
  {
    Tokens();
    assert NONE + [] == [];
  }

  /** A successful attempt of a stored chain is the commit of its transition. */
  lemma AdvanceLeads(s: System, t: string, now: int, tr: Transition<AdvanceResult>)
    requires t in s.workers && t in s.db.deliveries && s.workers[t].phase == Advancing
    requires s.workers[t].env.chainId in s.chains && tr == AdvanceCall(s, t, now) && tr.result.Ok?
    ensures var d, r := s.db.deliveries[t], tr.result.value;
            var next := AfterAdvance(s.workers[t].env, d.attempt, d.recovered, r);
            Leads(s, Step(t, now, Succeeded),
                  Commit(s, t, tr.state, tr.written, r.claimedNow && r.receipt.Some?, next.0, next.1))
  {
  }

  /** What a point that only reads the store yields, sealed for proofs that only pass it on. */
  ghost predicate Points(
      chains: map<string, ChainState>, receipts: map<ReceiptKey, Receipt>, w: Worker, d: Sql.Delivery, input: Input,
      next: (Phase, seq<Fact>))
  {
    && !w.phase.Failing? && !w.phase.Advancing? && !w.phase.Dispatching? && !w.phase.Returned?
    && forall k :: Unseal(k) ==> NextPoint(chains, receipts, w, d, input) == next
  }

  /** Such a point moves its worker. */
  lemma PointLeads(s: System, t: string, now: int, outcome: Outcome, next: (Phase, seq<Fact>))
    requires t in s.workers && t in s.db.deliveries
    requires Whole(Points(s.chains, s.receipts, s.workers[t], s.db.deliveries[t], Step(t, now, outcome).input, next))
    ensures Leads(s, Step(t, now, outcome), Move(s, t, next.0, next.1))
  {
    assert Unseal(0);
  }

  /** A settlement statement that is applied without its worker learning so is tried again. */
  lemma UnheardLeads(s: System, t: string, now: int, tries: nat)
    requires t in s.workers && t in s.db.deliveries && s.workers[t].phase == Returned(Succeeded, tries) && tries < 3
    ensures Leads(s, StepWith(t, now, Succeeded, false),
                  Move(s.(db := Sql.Apply(s.db, Sql.Settle(t, Succeeded, now))), t, Returned(Succeeded, tries + 1), []))
  {
  }

  // ---------- Runs ----------

  /** Which faults a run may contain: lost settlement replies, or vanished workers and recovered leases. */
  datatype Faults = Replies | Leases

  predicate Within(f: Faults, a: Action) {
    match a
    case Crash(_) => f == Leases
    case Recover(_, cfg) => f == Leases && cfg == LEASE
    case Work(_, input) => !input.storeDown && (f == Replies || (input.applied && input.acknowledged))
    case Create(_, _) => true
    case Start(_, _, reply, _) => reply == Accepted
    case FailStart(_, _, _) => false
    case ClaimRow(_, _, _) => true
    case Prune(_) => false
  }

  predicate AllWithin(f: Faults, actions: seq<Action>) {
    forall a :: a in actions ==> Within(f, a)
  }

  ghost predicate CanReach(f: Faults, s: System, end: System) {
    forall k :: Unseal(k) ==> exists actions :: IsRun(s, actions, end) && AllWithin(f, actions)
  }

  lemma Here(f: Faults, s: System)
    ensures CanReach(f, s, s)
  {
    assert IsRun(s, [], s) && AllWithin(f, []);
  }

  lemma Then(f: Faults, s: System, a: Action, mid: System, end: System)
    requires Leads(s, a, mid) && Within(f, a) && CanReach(f, mid, end)
    ensures CanReach(f, s, end)
  {
    assert Unseal(0);
    var actions :| IsRun(mid, actions, end) && AllWithin(f, actions);
    assert ([a] + actions)[0] == a && ([a] + actions)[1..] == actions;
    assert IsRun(s, [a] + actions, end) && AllWithin(f, [a] + actions);
  }

  /** The chain is created and started, and its first delivery runs up to its commit. */
  lemma FirstLegs(f: Faults, record: ChainRecord, end: System)
    requires OurRecord(record) && CanReach(f, Held1(record, Advancing), end)
    ensures CanReach(f, EMPTY, end)
  {
    FirstDelivery(record);
    Then(f, Held1(record, Execute), Step(T1, EARLY, Succeeded), Held1(record, Advancing), end);
    Then(f, Held1(record, Entered), Step(T1, EARLY, Succeeded), Held1(record, Execute), end);
    Then(f, Queued(record), ClaimRow(0, T1, EARLY), Held1(record, Entered), end);
    Opening(record);
    Then(f, Do(EMPTY, Create(record, 0)), Start("c", "j", Accepted, 0), Queued(record), end);
    Then(f, EMPTY, Create(record, 0), Do(EMPTY, Create(record, 0)), end);
  }
}
