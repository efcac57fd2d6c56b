/** SQL uniqueness locks: two keys claimed in the transaction that inserts the job, judged by the database clock. */
module SqlUniqueness {
  import opened Common

  const UNIQUE_PRUNE_INTERVAL := 256
  const NANOS_PER_MILLI := 1_000_000

  /** A bare digest written by older producers, or the versioned key; the version prefix keeps them apart. */
  datatype LockKey = Legacy(digest: string) | Canonical(key: string)

  type Locks = map<LockKey, int>

  /** How the queue-row transaction ends: rolled back, committed, or committed with its report lost. */
  datatype Commit = RolledBack | Committed | CommitLost

  datatype Reply = Accepted | Duplicate | Failed

  /** One unique dispatch, at one reading of the database clock. */
  datatype Dispatch = Dispatch(legacy: string, canonical: string, ttl: int, now: int, commit: Commit)

  function TtlMillis(ttl: int): int {
    if ttl < NANOS_PER_MILLI then 1 else ttl / NANOS_PER_MILLI
  }

  function Keys(d: Dispatch): seq<LockKey> {
    [Legacy(d.legacy), Canonical(d.canonical)]
  }

  // ---------- The transaction ----------

  predicate Free(locks: Locks, key: LockKey, now: int) {
    key in locks ==> locks[key] <= now
  }

  function Pruned(locks: Locks, now: int): Locks {
    map k | k in locks && locks[k] > now :: locks[k]
  }

  function Claimed(locks: Locks, keys: seq<LockKey>, expiresAt: int): Locks {
    if keys == [] then locks else Claimed(locks, keys[..|keys| - 1], expiresAt)[keys[|keys| - 1] := expiresAt]
  }

  /** The locks a committed dispatch leaves, if it may dispatch at all. */
  function Claim(locks: Locks, d: Dispatch, prune: bool): Option<Locks> {
    var base := if prune then Pruned(locks, d.now) else locks;
    if Free(locks, Legacy(d.legacy), d.now) && Free(locks, Canonical(d.canonical), d.now)
    then Some(Claimed(base, Keys(d), d.now + TtlMillis(d.ttl))) else None
  }

  function Outcome(locks: Locks, d: Dispatch, prune: bool): (Locks, Reply) {
    var claim := Claim(locks, d, prune);
    if claim.None? then (locks, Duplicate)
    else
      match d.commit
      case RolledBack => (locks, Failed)
      case Committed => (claim.value, Accepted)
      case CommitLost => (claim.value, Failed)
  }

  class LockTable {
    var locks: Locks
    var uniqueClaims: nat

    constructor ()
      ensures locks == map[] && uniqueClaims == 0
    {
      locks, uniqueClaims := map[], 0;
    }

    /** Insert if absent, otherwise take over an expired claim. */
    static method AcquireKey(tx: Locks, key: LockKey, now: int, expiresAt: int) returns (after: Locks, ok: bool)
      ensures ok == Free(tx, key, now)
      ensures after == if ok then tx[key := expiresAt] else tx
    {
      if key !in tx {
        return tx[key := expiresAt], true;
      }
      if tx[key] <= now {
        return tx[key := expiresAt], true;
      }
      return tx, false;
    }

    /** Claims the keys in order inside one transaction; the first held key abandons it. */
    static method AcquireAll(tx: Locks, keys: seq<LockKey>, now: int, expiresAt: int) returns (after: Locks, ok: bool)
      requires forall i, j :: 0 <= i < j < |keys| ==> keys[i] != keys[j]
      ensures ok <==> forall i :: 0 <= i < |keys| ==> Free(tx, keys[i], now)
      ensures ok ==> after == Claimed(tx, keys, expiresAt)
    {
      after := tx;
      for i := 0 to |keys|
        invariant after == Claimed(tx, keys[..i], expiresAt)
        invariant forall j :: 0 <= j < i ==> Free(tx, keys[j], now)
        invariant forall k :: k !in keys[..i] ==> ((k in after) <==> (k in tx)) && (k in after ==> after[k] == tx[k])
      {
        var claimed;
        assert keys[i] !in keys[..i];
        after, claimed := AcquireKey(after, keys[i], now, expiresAt);
        if !claimed {
          return after, false;
        }
        assert keys[..i + 1][..i] == keys[..i] && keys[..i + 1][i] == keys[i];
      }
      assert keys[..|keys|] == keys;
      return after, true;
    }

    /** A dispatch that is refused or rolled back leaves every lock as it was. */
    method DispatchUnique(d: Dispatch) returns (reply: Reply)
      modifies this
      ensures uniqueClaims == old(uniqueClaims) + 1
      ensures (locks, reply) == Outcome(old(locks), d, uniqueClaims % UNIQUE_PRUNE_INTERVAL == 0)
    {
      var tx := locks;
      uniqueClaims := uniqueClaims + 1;
      if uniqueClaims % UNIQUE_PRUNE_INTERVAL == 0 {
        tx := map k | k in tx && tx[k] > d.now :: tx[k];
      }
      var ttlMillis := TtlMillis(d.ttl);
      var ok;
      tx, ok := AcquireAll(tx, [Legacy(d.legacy), Canonical(d.canonical)], d.now, d.now + ttlMillis);
      var keys := Keys(d);
      assert keys[0] == Legacy(d.legacy) && keys[1] == Canonical(d.canonical);
      if !ok {
        return Duplicate;
      }
      if d.commit == RolledBack {
        return Failed;
      }
      locks := tx;
      return if d.commit == Committed then Accepted else Failed;
    }
  }

  // ---------- Main results ----------

  /** Pruning frees no live claim, so it never changes which dispatches are accepted. */
  lemma PruningIsInvisible(locks: Locks, d: Dispatch, key: LockKey)
    ensures Outcome(locks, d, true).1 == Outcome(locks, d, false).1
    ensures var a, b := Outcome(locks, d, true).0, Outcome(locks, d, false).0;
            if key in b && b[key] > d.now then key in a && a[key] == b[key] else key in a ==> a[key] <= d.now
  {
    ClaimedPair(locks, d);
    ClaimedPair(Pruned(locks, d.now), d);
  }

  lemma ClaimedPair(locks: Locks, d: Dispatch)
    ensures Claimed(locks, Keys(d), d.now + TtlMillis(d.ttl))
            == locks[Legacy(d.legacy) := d.now + TtlMillis(d.ttl)][Canonical(d.canonical) := d.now + TtlMillis(d.ttl)]
  {
    var keys, expiry := Keys(d), d.now + TtlMillis(d.ttl);
    assert keys[..1] == [Legacy(d.legacy)] && [Legacy(d.legacy)][..0] == [];
    assert Claimed(locks, [], expiry) == locks;
    assert Claimed(locks, [Legacy(d.legacy)], expiry) == locks[Legacy(d.legacy) := expiry];
  }

  function After(locks: Locks, count: nat, ds: seq<Dispatch>, n: nat): Locks
    requires n <= |ds|
  {
    if n == 0 then locks
    else Outcome(After(locks, count, ds, n - 1), ds[n - 1], (count + n) % UNIQUE_PRUNE_INTERVAL == 0).0
  }

  function ReplyTo(locks: Locks, count: nat, ds: seq<Dispatch>, n: nat): Reply
    requires n < |ds|
  {
    Outcome(After(locks, count, ds, n), ds[n], (count + n + 1) % UNIQUE_PRUNE_INTERVAL == 0).1
  }

  /** The database clock does not run backwards. */
  predicate Monotone(ds: seq<Dispatch>) {
    forall i, j :: 0 <= i < j < |ds| ==> ds[i].now <= ds[j].now
  }

  predicate HeldUntil(locks: Locks, key: LockKey, expiry: int) {
    key in locks && locks[key] >= expiry
  }

  lemma StepKeepsHeld(locks: Locks, d: Dispatch, prune: bool, key: LockKey, expiry: int)
    requires HeldUntil(locks, key, expiry) && d.now < expiry
    ensures HeldUntil(Outcome(locks, d, prune).0, key, expiry)
  {
    ClaimedPair(locks, d);
    ClaimedPair(Pruned(locks, d.now), d);
  }

  lemma {:induction false} HeldWhileLive(
      locks: Locks, count: nat, ds: seq<Dispatch>, key: LockKey, expiry: int, from: nat, n: nat)
    requires from <= n <= |ds| && HeldUntil(After(locks, count, ds, from), key, expiry)
    requires forall k :: from <= k < n ==> ds[k].now < expiry
    ensures HeldUntil(After(locks, count, ds, n), key, expiry)
    decreases n
  {
    if n > from {
      HeldWhileLive(locks, count, ds, key, expiry, from, n - 1);
      StepKeepsHeld(After(locks, count, ds, n - 1), ds[n - 1], (count + n) % UNIQUE_PRUNE_INTERVAL == 0, key, expiry);
    }
  }

  /**
   The clock is read before the lock statements, so readings need not follow the order of commits. Over every sequence
   of dispatches, two accepted dispatches of one canonical key are separated by a dispatch, possibly the second itself,
   that read a clock at or past the first one's expiry, whatever other dispatches, rollbacks and prunes intervene.
   */
  lemma ClaimHoldsUntilExpiryIsRead(locks: Locks, count: nat, ds: seq<Dispatch>, i: nat, j: nat)
    requires i < j < |ds| && ds[i].canonical == ds[j].canonical
    requires ReplyTo(locks, count, ds, i) == Accepted && ReplyTo(locks, count, ds, j) == Accepted
    ensures exists k :: i < k <= j && ds[k].now >= ds[i].now + TtlMillis(ds[i].ttl)
  {
    var key, expiry := Canonical(ds[i].canonical), ds[i].now + TtlMillis(ds[i].ttl);
    if forall k :: i < k <= j ==> ds[k].now < expiry {
      var before := After(locks, count, ds, i);
      ClaimedPair(before, ds[i]);
      ClaimedPair(Pruned(before, ds[i].now), ds[i]);
      HeldWhileLive(locks, count, ds, key, expiry, i + 1, j);
      assert false;
    }
  }

  /** Under a monotone clock they are therefore separated by at least the first one's time to live. */
  lemma AcceptedDispatchesAreSeparated(locks: Locks, count: nat, ds: seq<Dispatch>, i: nat, j: nat)
    requires Monotone(ds) && i < j < |ds| && ds[i].canonical == ds[j].canonical
    requires ReplyTo(locks, count, ds, i) == Accepted && ReplyTo(locks, count, ds, j) == Accepted
    ensures ds[j].now >= ds[i].now + TtlMillis(ds[i].ttl)
  {
    ClaimHoldsUntilExpiryIsRead(locks, count, ds, i, j);
  }

  // ---------- The canonical key alone ----------

  /** The same transaction with the canonical key only. */
  function CanonicalOutcome(locks: Locks, d: Dispatch, prune: bool): (Locks, Reply) {
    var base := if prune then Pruned(locks, d.now) else locks;
    if !Free(locks, Canonical(d.canonical), d.now) then (locks, Duplicate)
    else
      match d.commit
      case RolledBack => (locks, Failed)
      case Committed => (base[Canonical(d.canonical) := d.now + TtlMillis(d.ttl)], Accepted)
      case CommitLost => (base[Canonical(d.canonical) := d.now + TtlMillis(d.ttl)], Failed)
  }

  predicate PrunesAt(count: nat) {
    count % UNIQUE_PRUNE_INTERVAL == 0
  }

  /** The dispatches of a run that are not refused as duplicates under both keys, in order. */
  function Admitted(locks: Locks, count: nat, ds: seq<Dispatch>): seq<Dispatch>
    decreases |ds|
  {
    if ds == [] then []
    else
      var o := Outcome(locks, ds[0], PrunesAt(count + 1));
      (if o.1 != Duplicate then [ds[0]] else []) + Admitted(o.0, count + 1, ds[1..])
  }

  /** A run in which the canonical key alone refuses nothing. */
  predicate CanonicalAdmits(locks: Locks, count: nat, ds: seq<Dispatch>)
    decreases |ds|
  {
    ds != [] ==>
      var o := CanonicalOutcome(locks, ds[0], PrunesAt(count + 1));
      o.1 != Duplicate && CanonicalAdmits(o.0, count + 1, ds[1..])
  }

  predicate Live(locks: Locks, key: LockKey, time: int) {
    key in locks && locks[key] > time
  }

  /** From this time on both tables hold the same canonical claims. */
  ghost predicate Agree(a: Locks, b: Locks, time: int) {
    forall c :: && (Live(a, Canonical(c), time) <==> Live(b, Canonical(c), time))
                && (Live(a, Canonical(c), time) ==> a[Canonical(c)] == b[Canonical(c)])
  }

  lemma AdmissionAgrees(a: Locks, b: Locks, d: Dispatch, p: bool, q: bool, time: int)
    requires Agree(a, b, time) && time <= d.now && Outcome(a, d, p).1 != Duplicate
    ensures CanonicalOutcome(b, d, q).1 == Outcome(a, d, p).1
    ensures Agree(Outcome(a, d, p).0, CanonicalOutcome(b, d, q).0, d.now)
  {
    ClaimedPair(a, d);
    ClaimedPair(Pruned(a, d.now), d);
    assert Live(a, Canonical(d.canonical), time) <==> Live(b, Canonical(d.canonical), time);
  }

  lemma AdmittedHead(a: Locks, m: nat, ds: seq<Dispatch>)
    requires ds != []
    ensures var o := Outcome(a, ds[0], PrunesAt(m + 1));
            if o.1 == Duplicate then o.0 == a && Admitted(a, m, ds) == Admitted(a, m + 1, ds[1..])
            else Admitted(a, m, ds) == [ds[0]] + Admitted(o.0, m + 1, ds[1..])
  {
  }

  lemma CanonicalHead(b: Locks, n: nat, d: Dispatch, rest: seq<Dispatch>)
    requires CanonicalOutcome(b, d, PrunesAt(n + 1)).1 != Duplicate
    requires CanonicalAdmits(CanonicalOutcome(b, d, PrunesAt(n + 1)).0, n + 1, rest)
    ensures CanonicalAdmits(b, n, [d] + rest)
  {
    assert ([d] + rest)[0] == d && ([d] + rest)[1..] == rest;
  }

  lemma {:induction false} AdmittedIsCanonical(
      a: Locks, m: nat, b: Locks, n: nat, ds: seq<Dispatch>, time: int)
    requires Agree(a, b, time) && Monotone(ds) && (ds != [] ==> time <= ds[0].now)
    ensures CanonicalAdmits(b, n, Admitted(a, m, ds))
    decreases |ds|
  {
    if ds != [] {
      var d, rest := ds[0], ds[1..];
      var o := Outcome(a, d, PrunesAt(m + 1));
      assert forall i :: 0 <= i < |rest| ==> rest[i] == ds[i + 1];
      AdmittedHead(a, m, ds);
      if o.1 == Duplicate {
        AdmittedIsCanonical(a, m + 1, b, n, rest, d.now);
      } else {
        AdmissionAgrees(a, b, d, PrunesAt(m + 1), PrunesAt(n + 1), time);
        AdmittedIsCanonical(o.0, m + 1, CanonicalOutcome(b, d, PrunesAt(n + 1)).0, n + 1, rest, d.now);
        CanonicalHead(b, n, d, Admitted(o.0, m + 1, rest));
      }
    }
  }

  /**
   The extra legacy key admits no history the canonical key would refuse: over any run with a clock that does not run
   backwards, the dispatches admitted under both keys are all admitted, in the same order, by the canonical key alone,
   whatever was locked and however often expired claims are pruned.
   */
  lemma LegacyOnlyRejectsMore(locks: Locks, count: nat, alone: nat, ds: seq<Dispatch>)
    requires Monotone(ds)
    ensures CanonicalAdmits(locks, alone, Admitted(locks, count, ds))
  {
    if ds != [] {
      AdmittedIsCanonical(locks, count, locks, alone, ds, ds[0].now);
    }
  }
}
