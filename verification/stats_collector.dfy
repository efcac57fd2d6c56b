/** The statistics collector of one queue: its active gauge and its throughput windows agree with the event history. */
module StatsCollector {
  import opened Common

  const HOUR := 3600
  const DAY := 24 * HOUR
  const WEEK := 7 * DAY

  datatype Kind =
    | EnqueueAccepted
    | ProcessStarted
    | ProcessSucceeded
    | ProcessFailed
    | ProcessRetried
    | ProcessArchived
    | SettlementFailed
    | QueuePaused
    | QueueResumed
    | OtherKind

  /** `settlement` is the physical identity a driver attaches; `key` the event-only identity, empty without a job id. */
  datatype Event = Event(kind: Kind, settlement: Option<string>, key: string, scheduled: bool, time: int)

  /** Executions that started and have not ended, by the strongest correlation known for each. */
  datatype Gauge = Gauge(active: int, settlements: set<string>, byKey: map<string, int>, uncorrelated: int)

  datatype Counters = Counters(
    pending: int, scheduled: int, retry: int, archived: int, processed: int, failed: int, paused: int)

  datatype Stats = Stats(gauge: Gauge, counters: Counters, processedAt: seq<int>, failedAt: seq<int>)

  const NEW_STATS := Stats(Gauge(0, {}, map[], 0), Counters(0, 0, 0, 0, 0, 0, 0), [], [])

  // ---------- The active gauge ----------

  function OpenActive(g: Gauge, e: Event): Gauge {
    if e.settlement.Some? then
      if e.settlement.value in g.settlements then g
      else g.(settlements := g.settlements + {e.settlement.value}, active := g.active + 1)
    else if e.key != "" then
      g.(byKey := g.byKey[e.key := (if e.key in g.byKey then g.byKey[e.key] else 0) + 1], active := g.active + 1)
    else g.(uncorrelated := g.uncorrelated + 1, active := g.active + 1)
  }

  function Lower(active: int): int {
    if active > 0 then active - 1 else active
  }

  function CloseByKey(g: Gauge, key: string): Gauge {
    if key == "" then
      if g.uncorrelated > 0 then g.(uncorrelated := g.uncorrelated - 1, active := Lower(g.active)) else g
    else if key in g.byKey && g.byKey[key] > 0 then
      g.(byKey := if g.byKey[key] == 1 then g.byKey - {key} else g.byKey[key := g.byKey[key] - 1],
         active := Lower(g.active))
    else g
  }

  function CloseActive(g: Gauge, e: Event): Gauge {
    if e.settlement.Some? then
      if e.settlement.value in g.settlements
      then g.(settlements := g.settlements - {e.settlement.value}, active := Lower(g.active)) else g
    else CloseByKey(g, e.key)
  }

  /** The gauge after one event; a settlement failure without physical identity closes nothing. */
  function Gauged(g: Gauge, e: Event): Gauge {
    match e.kind
    case ProcessStarted => OpenActive(g, e)
    case ProcessSucceeded => CloseActive(g, e)
    case ProcessFailed => CloseActive(g, e)
    case SettlementFailed => if e.settlement.Some? then CloseActive(g, e) else g
    case _ => g
  }

  ghost function Sum(m: map<string, int>): int
    decreases |m|
  {
    if m == map[] then 0 else var k :| k in m; m[k] + Sum(m - {k})
  }

  lemma {:induction false} SumRemoves(m: map<string, int>, k: string)
    requires k in m
    ensures Sum(m) == m[k] + Sum(m - {k})
    decreases |m|
  {
    var c :| c in m && Sum(m) == m[c] + Sum(m - {c});
    if c != k {
      SumRemoves(m - {c}, k);
      SumRemoves(m - {k}, c);
      assert (m - {c}) - {k} == (m - {k}) - {c};
    }
  }

  lemma SumUpdates(m: map<string, int>, k: string, v: int)
    ensures Sum(m[k := v]) == Sum(m - {k}) + v
  {
    SumRemoves(m[k := v], k);
    assert m[k := v] - {k} == m - {k};
  }

  /** Active is exactly the open executions of all three correlations, and none of the parts is negative. */
  ghost predicate GaugeOk(g: Gauge) {
    && g.active == |g.settlements| + Sum(g.byKey) + g.uncorrelated
    && g.uncorrelated >= 0 && Sum(g.byKey) >= 0 && forall k :: k in g.byKey ==> g.byKey[k] > 0
  }

  lemma {:induction false} SumPositive(m: map<string, int>)
    requires forall k :: k in m ==> m[k] > 0
    ensures Sum(m) >= 0 && (m != map[] ==> Sum(m) > 0)
    decreases |m|
  {
    if m != map[] {
      var c :| c in m && Sum(m) == m[c] + Sum(m - {c});
      SumPositive(m - {c});
    }
  }

  lemma KeyedOk(g: Gauge, key: string, n: int)
    requires GaugeOk(g) && n > 0
    ensures var old' := if key in g.byKey then g.byKey[key] else 0;
            Sum(g.byKey[key := n]) == Sum(g.byKey) - old' + n && Sum(g.byKey[key := n]) >= 0
  {
    SumUpdates(g.byKey, key, n);
    if key in g.byKey {
      SumRemoves(g.byKey, key);
    } else {
      assert g.byKey - {key} == g.byKey;
    }
    SumPositive(g.byKey[key := n]);
  }

  lemma OpenKeeps(g: Gauge, e: Event)
    requires GaugeOk(g)
    ensures GaugeOk(OpenActive(g, e))
  {
    if e.settlement.None? && e.key != "" {
      KeyedOk(g, e.key, (if e.key in g.byKey then g.byKey[e.key] else 0) + 1);
    }
  }

  lemma CloseKeeps(g: Gauge, e: Event)
    requires GaugeOk(g)
    ensures GaugeOk(CloseActive(g, e))
  {
    SumPositive(g.byKey);
    if e.settlement.None? && e.key in g.byKey {
      SumRemoves(g.byKey, e.key);
      SumPositive(g.byKey - {e.key});
      if g.byKey[e.key] > 1 {
        KeyedOk(g, e.key, g.byKey[e.key] - 1);
      }
    }
  }

  function GaugedAll(g: Gauge, events: seq<Event>): Gauge
    decreases |events|
  {
    if events == [] then g else GaugedAll(Gauged(g, events[0]), events[1..])
  }

  /** Over every event sequence the gauge equals the open executions and is never negative. */
  lemma {:induction false} ActiveCountsOpenExecutions(g: Gauge, events: seq<Event>)
    requires GaugeOk(g)
    ensures GaugeOk(GaugedAll(g, events)) && GaugedAll(g, events).active >= 0
    decreases |events|
  {
    if events != [] {
      OpenKeeps(g, events[0]);
      CloseKeeps(g, events[0]);
      ActiveCountsOpenExecutions(Gauged(g, events[0]), events[1..]);
    }
  }

  // ---------- Throughput windows ----------

  function Since(times: seq<int>, cutoff: int): nat {
    if times == [] then 0
    else Since(times[..|times| - 1], cutoff) + if times[|times| - 1] >= cutoff then 1 else 0
  }

  /** The leading entries older than the cutoff. */
  function StaleLength(times: seq<int>, cutoff: int): (n: nat)
    ensures n <= |times|
  {
    if times == [] || times[0] >= cutoff then 0 else 1 + StaleLength(times[1..], cutoff)
  }

  /** Everything before that length is older than the cutoff, and the next entry is not. */
  lemma {:induction false} StaleStops(times: seq<int>, cutoff: int)
    ensures var n := StaleLength(times, cutoff);
            && (forall i :: 0 <= i < n ==> times[i] < cutoff) && (n < |times| ==> times[n] >= cutoff)
    decreases |times|
  {
    if times != [] && times[0] < cutoff {
      var n := StaleLength(times, cutoff);
      StaleStops(times[1..], cutoff);
      forall i | 0 <= i < n ensures times[i] < cutoff {
        assert i > 0 ==> times[i] == times[1..][i - 1];
      }
      assert n < |times| ==> times[n] == times[1..][n - 1];
    }
  }

  function Kept(times: seq<int>, cutoff: int): seq<int> {
    times[StaleLength(times, cutoff)..]
  }

  method CountSince(times: seq<int>, cutoff: int) returns (total: nat)
    ensures total == Since(times, cutoff)
  {
    total := 0;
    for i := 0 to |times|
      invariant total == Since(times[..i], cutoff)
    {
      assert times[..i + 1][..i] == times[..i];
      if times[i] >= cutoff {
        total := total + 1;
      }
    }
    assert times[..|times|] == times;
  }

  method PruneBefore(times: seq<int>, cutoff: int) returns (out: seq<int>)
    ensures out == Kept(times, cutoff)
  {
    var idx := 0;
    while idx < |times| && times[idx] < cutoff
      invariant idx <= |times| && StaleLength(times, cutoff) == idx + StaleLength(times[idx..], cutoff)
    {
      assert times[idx..][1..] == times[idx + 1..];
      idx := idx + 1;
    }
    return times[idx..];
  }

  function Counted(c: Counters, e: Event): Counters {
    match e.kind
    case EnqueueAccepted =>
      c.(pending := c.pending + 1, scheduled := if e.scheduled then c.scheduled + 1 else c.scheduled)
    case ProcessStarted =>
      c.(pending := Lower(c.pending), scheduled := if e.scheduled then Lower(c.scheduled) else c.scheduled)
    case ProcessRetried => c.(retry := c.retry + 1)
    case ProcessArchived => c.(archived := c.archived + 1)
    case QueuePaused => c.(paused := 1)
    case QueueResumed => c.(paused := 0)
    case ProcessSucceeded => c.(processed := c.processed + 1)
    case ProcessFailed => c.(failed := c.failed + 1)
    case _ => c
  }

  function Appended(times: seq<int>, e: Event, kind: Kind): seq<int> {
    if e.kind == kind then times + [e.time] else times
  }

  /** One observed event. Every event prunes both lists to the week before it. */
  function Observed(s: Stats, e: Event): Stats {
    Stats(Gauged(s.gauge, e), Counted(s.counters, e),
          Kept(Appended(s.processedAt, e, ProcessSucceeded), e.time - WEEK),
          Kept(Appended(s.failedAt, e, ProcessFailed), e.time - WEEK))
  }

  class CollectorQueue {
    var counters: Counters
    var active: int
    var activeSettlements: set<string>
    var activeByKey: map<string, int>
    var uncorrelatedActive: int
    var processedAt: seq<int>
    var failedAt: seq<int>

    function View(): Stats
      reads this
    {
      Stats(Gauge(active, activeSettlements, activeByKey, uncorrelatedActive), counters, processedAt, failedAt)
    }

    constructor ()
      ensures View() == NEW_STATS
    {
      counters := Counters(0, 0, 0, 0, 0, 0, 0);
      active, activeSettlements, activeByKey, uncorrelatedActive := 0, {}, map[], 0;
      processedAt, failedAt := [], [];
    }

    method Open(e: Event)
      modifies this
      ensures View() == old(View()).(gauge := OpenActive(old(View()).gauge, e))
    {
      if e.settlement.Some? {
        if e.settlement.value in activeSettlements {
          return;
        }
        activeSettlements := activeSettlements + {e.settlement.value};
        active := active + 1;
        return;
      }
      if e.key != "" {
        activeByKey := activeByKey[e.key := (if e.key in activeByKey then activeByKey[e.key] else 0) + 1];
      } else {
        uncorrelatedActive := uncorrelatedActive + 1;
      }
      active := active + 1;
    }

    method CloseKeyed(key: string)
      modifies this
      ensures View() == old(View()).(gauge := CloseByKey(old(View()).gauge, key))
    {
      if key == "" && uncorrelatedActive > 0 {
        uncorrelatedActive := uncorrelatedActive - 1;
      } else if key != "" && key in activeByKey && activeByKey[key] > 0 {
        activeByKey := activeByKey[key := activeByKey[key] - 1];
        if activeByKey[key] == 0 {
          activeByKey := activeByKey - {key};
          assert activeByKey == old(activeByKey) - {key};
        }
      } else {
        return;
      }
      if active > 0 {
        active := active - 1;
      }
    }

    method Close(e: Event)
      modifies this
      ensures View() == old(View()).(gauge := CloseActive(old(View()).gauge, e))
    {
      if e.settlement.Some? {
        if e.settlement.value !in activeSettlements {
          return;
        }
        activeSettlements := activeSettlements - {e.settlement.value};
        if active > 0 {
          active := active - 1;
        }
      } else {
        CloseKeyed(e.key);
      }
    }

    method Tally(e: Event)
      modifies `counters
      ensures counters == Counted(old(counters), e)
    {
      match e.kind {
        case EnqueueAccepted =>
          counters := counters.(pending := counters.pending + 1);
          if e.scheduled {
            counters := counters.(scheduled := counters.scheduled + 1);
          }
        case ProcessStarted =>
          if counters.pending > 0 {
            counters := counters.(pending := counters.pending - 1);
          }
          if counters.scheduled > 0 && e.scheduled {
            counters := counters.(scheduled := counters.scheduled - 1);
          }
        case ProcessRetried => counters := counters.(retry := counters.retry + 1);
        case ProcessArchived => counters := counters.(archived := counters.archived + 1);
        case QueuePaused => counters := counters.(paused := 1);
        case QueueResumed => counters := counters.(paused := 0);
        case ProcessSucceeded => counters := counters.(processed := counters.processed + 1);
        case ProcessFailed => counters := counters.(failed := counters.failed + 1);
        case SettlementFailed =>
        case OtherKind =>
      }
    }

    method Observe(e: Event)
      modifies this
      ensures View() == Observed(old(View()), e)
    {
      Tally(e);
      Correlate(e);
      Log(e);
    }

    method Correlate(e: Event)
      modifies this
      ensures View() == old(View()).(gauge := Gauged(old(View()).gauge, e))
    {
      if e.kind == ProcessStarted {
        Open(e);
      } else if e.kind == ProcessSucceeded || e.kind == ProcessFailed
                || (e.kind == SettlementFailed && e.settlement.Some?) {
        Close(e);
      }
    }

    method Log(e: Event)
      modifies `processedAt, `failedAt
      ensures processedAt == Kept(Appended(old(processedAt), e, ProcessSucceeded), e.time - WEEK)
      ensures failedAt == Kept(Appended(old(failedAt), e, ProcessFailed), e.time - WEEK)
    {
      if e.kind == ProcessSucceeded {
        processedAt := processedAt + [e.time];
      } else if e.kind == ProcessFailed {
        failedAt := failedAt + [e.time];
      }
      processedAt := PruneBefore(processedAt, e.time - WEEK);
      failedAt := PruneBefore(failedAt, e.time - WEEK);
    }

    /** The processed and failed counts of one window ending now. */
    method Window(now: int, length: int) returns (processed: nat, failed: nat)
      ensures processed == Since(processedAt, now - length) && failed == Since(failedAt, now - length)
    {
      processed := CountSince(processedAt, now - length);
      failed := CountSince(failedAt, now - length);
    }
  }

  // ---------- Windows and the full history ----------

  function ObservedAll(events: seq<Event>): Stats {
    if events == [] then NEW_STATS else Observed(ObservedAll(Front(events)), Last(events))
  }

  function Front(events: seq<Event>): seq<Event>
    requires events != []
  {
    events[..|events| - 1]
  }

  function Last(events: seq<Event>): Event
    requires events != []
  {
    events[|events| - 1]
  }

  /** Every time of one kind ever observed. */
  function History(events: seq<Event>, kind: Kind): seq<int> {
    if events == [] then [] else Appended(History(Front(events), kind), Last(events), kind)
  }

  /** The list a window counts. */
  function TimesOf(s: Stats, kind: Kind): seq<int> {
    if kind == ProcessSucceeded then s.processedAt else s.failedAt
  }

  predicate Windowed(kind: Kind) {
    kind == ProcessSucceeded || kind == ProcessFailed
  }

  /** One list after a sequence of events. */
  function Listed(events: seq<Event>, kind: Kind): seq<int> {
    if events == [] then []
    else Kept(Appended(Listed(Front(events), kind), Last(events), kind), Last(events).time - WEEK)
  }

  /** The collector's lists are these. */
  lemma {:induction false} CollectorLists(events: seq<Event>, kind: Kind)
    requires Windowed(kind)
    ensures TimesOf(ObservedAll(events), kind) == Listed(events, kind)
  {
    if events != [] {
      CollectorLists(Front(events), kind);
    }
  }

  /** How many entries of the history have been pruned. */
  function Dropped(events: seq<Event>, kind: Kind): (k: nat)
    ensures k <= |History(events, kind)|
  {
    if events == [] then 0
    else
      var k := Dropped(Front(events), kind);
      k + StaleLength(History(events, kind)[k..], Last(events).time - WEEK)
  }

  lemma PruneStep(h: seq<int>, k: nat, e: Event, kind: Kind, cutoff: int)
    requires k <= |h|
    ensures var h' := Appended(h, e, kind);
            k <= |h'| && Kept(Appended(h[k..], e, kind), cutoff) == h'[k + StaleLength(h'[k..], cutoff)..]
  {
    var h' := Appended(h, e, kind);
    assert Appended(h[k..], e, kind) == h'[k..];
    assert h'[k..][StaleLength(h'[k..], cutoff)..] == h'[k + StaleLength(h'[k..], cutoff)..];
  }

  /** Pruning only ever drops a prefix of the history. */
  lemma {:induction false} KeptIsSuffix(events: seq<Event>, kind: Kind)
    ensures Listed(events, kind) == History(events, kind)[Dropped(events, kind)..]
  {
    if events != [] {
      KeptIsSuffix(Front(events), kind);
      PruneStep(History(Front(events), kind), Dropped(Front(events), kind), Last(events), kind,
                Last(events).time - WEEK);
    }
  }

  lemma {:induction false} SinceConcat(a: seq<int>, b: seq<int>, cutoff: int)
    ensures Since(a + b, cutoff) == Since(a, cutoff) + Since(b, cutoff)
    decreases |b|
  {
    if b == [] {
      assert a + b == a;
    } else {
      var n := |b| - 1;
      assert (a + b)[..|a + b| - 1] == a + b[..n];
      SinceConcat(a, b[..n], cutoff);
    }
  }

  lemma {:induction false} NoneSince(times: seq<int>, cutoff: int)
    ensures Since(times, cutoff) == 0 <==> forall i :: 0 <= i < |times| ==> times[i] < cutoff
    decreases |times|
  {
    if times != [] {
      var n := |times| - 1;
      NoneSince(times[..n], cutoff);
      assert forall i :: 0 <= i < n ==> times[..n][i] == times[i];
    }
  }

  /** The first k entries are older than the cutoff. */
  predicate AllBefore(times: seq<int>, k: nat, cutoff: int)
    requires k <= |times|
  {
    forall i :: 0 <= i < k ==> times[i] < cutoff
  }

  /** The entries from the k-th on are not. */
  predicate AllSince(times: seq<int>, k: nat, cutoff: int) {
    forall i :: k <= i < |times| ==> times[i] >= cutoff
  }

  lemma ExactIffDroppedOld(h: seq<int>, k: nat, cutoff: int)
    requires k <= |h|
    ensures Since(h[k..], cutoff) == Since(h, cutoff) <==> AllBefore(h, k, cutoff)
  {
    assert h == h[..k] + h[k..];
    SinceConcat(h[..k], h[k..], cutoff);
    NoneSince(h[..k], cutoff);
  }

  /**
   For every event sequence, in any order of times: the pruned list is a suffix of the full history, and a window counts
   it exactly as it would count the full history if and only if nothing that was dropped lies inside the window.
   */
  lemma WindowExactIff(events: seq<Event>, kind: Kind, cutoff: int)
    requires Windowed(kind)
    ensures var h, k := History(events, kind), Dropped(events, kind);
            && TimesOf(ObservedAll(events), kind) == Listed(events, kind) == h[k..]
            && (Since(Listed(events, kind), cutoff) == Since(h, cutoff) <==> AllBefore(h, k, cutoff))
  {
    CollectorLists(events, kind);
    ListExactIff(events, kind, cutoff);
  }

  lemma ListExactIff(events: seq<Event>, kind: Kind, cutoff: int)
    ensures var h, k := History(events, kind), Dropped(events, kind);
            && Listed(events, kind) == h[k..]
            && (Since(Listed(events, kind), cutoff) == Since(h, cutoff) <==> AllBefore(h, k, cutoff))
  {
    KeptIsSuffix(events, kind);
    ExactIffDroppedOld(History(events, kind), Dropped(events, kind), cutoff);
  }

  predicate Ordered(events: seq<Event>) {
    forall i, j :: 0 <= i < j < |events| ==> events[i].time <= events[j].time
  }

  predicate SortedUpTo(times: seq<int>, time: int) {
    && (forall i, j :: 0 <= i < j < |times| ==> times[i] <= times[j])
    && (forall i :: 0 <= i < |times| ==> times[i] <= time)
  }

  lemma {:induction false} HistorySorted(events: seq<Event>, kind: Kind)
    requires events != [] && Ordered(events)
    ensures SortedUpTo(History(events, kind), Last(events).time)
    decreases |events|
  {
    if |events| > 1 {
      assert Last(Front(events)).time <= Last(events).time;
      HistorySorted(Front(events), kind);
    }
  }

  lemma SortedPruning(h: seq<int>, k: nat, cutoff: int, time: int)
    requires k <= |h| && SortedUpTo(h, time) && AllBefore(h, k, cutoff)
    ensures var n := StaleLength(h[k..], cutoff);
            k + n <= |h| && AllBefore(h, k + n, cutoff) && AllSince(h, k + n, cutoff)
  {
    var n := StaleLength(h[k..], cutoff);
    StaleStops(h[k..], cutoff);
    forall i | 0 <= i < k + n ensures h[i] < cutoff {
      if i >= k {
        assert h[i] == h[k..][i - k];
      }
    }
    if k + n < |h| {
      assert h[k..][n] == h[k + n];
    }
  }

  /** With event times in order, pruning has dropped exactly what is older than a week before the last event. */
  lemma {:induction false} OrderedPruning(events: seq<Event>, kind: Kind)
    requires events != [] && Ordered(events)
    ensures var h, k, cutoff := History(events, kind), Dropped(events, kind), Last(events).time - WEEK;
            AllBefore(h, k, cutoff) && AllSince(h, k, cutoff)
    decreases |events|
  {
    var front, h, cutoff := Front(events), History(events, kind), Last(events).time - WEEK;
    HistorySorted(events, kind);
    if |events| > 1 {
      assert Last(front).time <= Last(events).time;
      OrderedPruning(front, kind);
    }
    assert AllBefore(h, Dropped(front, kind), cutoff);
    SortedPruning(h, Dropped(front, kind), cutoff, Last(events).time);
  }

  lemma {:induction false} HistoryMembers(events: seq<Event>, kind: Kind, time: int)
    ensures time in History(events, kind) <==>
              exists i :: 0 <= i < |events| && events[i].kind == kind && events[i].time == time
  {
    if events != [] {
      HistoryMembers(Front(events), kind, time);
      if time in History(Front(events), kind) {
        var i :| 0 <= i < |Front(events)| && Front(events)[i].kind == kind && Front(events)[i].time == time;
        assert events[i].kind == kind && events[i].time == time;
      }
      if i :| 0 <= i < |events| && events[i].kind == kind && events[i].time == time {
        assert i < |Front(events)| ==> Front(events)[i] == events[i];
      }
    }
  }

  /** The event falls inside the window although a week has passed before the last event. */
  predicate Overlooked(e: Event, kind: Kind, cutoff: int, latest: int) {
    e.kind == kind && cutoff <= e.time < latest - WEEK
  }

  predicate NoneOverlooked(events: seq<Event>, kind: Kind, cutoff: int)
    requires events != []
  {
    forall i :: 0 <= i < |events| ==> !Overlooked(events[i], kind, cutoff, Last(events).time)
  }

  lemma DroppedIffOverlooked(events: seq<Event>, kind: Kind, cutoff: int, h: seq<int>, k: nat)
    requires events != [] && h == History(events, kind) && k <= |h|
    requires AllBefore(h, k, Last(events).time - WEEK) && AllSince(h, k, Last(events).time - WEEK)
    ensures AllBefore(h, k, cutoff) <==> NoneOverlooked(events, kind, cutoff)
  {
    if i :| 0 <= i < k && h[i] >= cutoff {
      HistoryMembers(events, kind, h[i]);
      var j :| 0 <= j < |events| && events[j].kind == kind && events[j].time == h[i];
      assert Overlooked(events[j], kind, cutoff, Last(events).time);
    }
    if i :| 0 <= i < |events| && Overlooked(events[i], kind, cutoff, Last(events).time) {
      HistoryMembers(events, kind, events[i].time);
      var j :| 0 <= j < |h| && h[j] == events[i].time;
    }
  }

  /**
   With event times in order, a window is exact if and only if no event of its kind lies at or after its start and more
   than a week before the last event.
   */
  lemma OrderedWindowExactIff(events: seq<Event>, kind: Kind, now: int, length: int)
    requires Ordered(events) && events != []
    ensures Since(Listed(events, kind), now - length) == Since(History(events, kind), now - length)
            <==> NoneOverlooked(events, kind, now - length)
  {
    ListExactIff(events, kind, now - length);
    OrderedPruning(events, kind);
    DroppedIffOverlooked(events, kind, now - length, History(events, kind), Dropped(events, kind));
  }

  /** Nothing is dropped from a window unless some event is observed more than a week after the window's start. */
  lemma {:induction false} DroppedIsOld(events: seq<Event>, kind: Kind, cutoff: int)
    requires forall i :: 0 <= i < |events| ==> events[i].time - WEEK <= cutoff
    ensures AllBefore(History(events, kind), Dropped(events, kind), cutoff)
  {
    if events != [] {
      var h, k := History(events, kind), Dropped(Front(events), kind);
      DroppedIsOld(Front(events), kind, cutoff);
      assert AllBefore(h, k, cutoff);
      StaleStops(h[k..], Last(events).time - WEEK);
      forall i | 0 <= i < Dropped(events, kind) ensures h[i] < cutoff {
        assert i >= k ==> h[i] == h[k..][i - k];
      }
    }
  }

  /**
   Whatever the order of the event times, a window is exact when no event is observed more than a week after its start;
   in particular any window up to a week of a snapshot taken no earlier than any observed event.
   */
  lemma SnapshotCountsFullHistory(events: seq<Event>, kind: Kind, now: int, length: int)
    requires forall i :: 0 <= i < |events| ==> events[i].time - WEEK <= now - length
    ensures Since(Listed(events, kind), now - length) == Since(History(events, kind), now - length)
  {
    ListExactIff(events, kind, now - length);
    DroppedIsOld(events, kind, now - length);
  }

  /** A snapshot clock behind an observed event loses what that event pruned. */
  lemma EarlySnapshotLosesHistory()
    ensures var events := [Event(ProcessSucceeded, None, "", false, 0), Event(OtherKind, None, "", false, WEEK + 1)];
            Since(Listed(events, ProcessSucceeded), 0) != Since(History(events, ProcessSucceeded), 0)
  {
    var events := [Event(ProcessSucceeded, None, "", false, 0), Event(OtherKind, None, "", false, WEEK + 1)];
    OrderedWindowExactIff(events, ProcessSucceeded, 0, 0);
    assert Overlooked(events[0], ProcessSucceeded, 0, Last(events).time);
  }
}
