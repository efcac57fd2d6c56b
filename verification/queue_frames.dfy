/** How one queue statement moves the table, its claims and its rows. */
module QueueFrames {
  import opened Common
  import opened Attempts
  import opened Recovery
  import Sql = SqlRows

  type Db = Sql.Db<Envelope>

  const NANOS_PER_SECOND := 1_000_000_000
  const NANOS_PER_MILLI := 1_000_000

  /** The row a delivery is inserted as. */
  function RowOf(env: Envelope, now: int): Sql.Step<Envelope>
    requires env.job.options.retry >= 0
  {
    var o := env.job.options;
    Sql.Insert(o.retry,
               if o.backoff > 0 then o.backoff / NANOS_PER_MILLI else 0,
               if o.timeout > 0 then Some((o.timeout + NANOS_PER_SECOND - 1) / NANOS_PER_SECOND) else None,
               now + (if o.delay > 0 then o.delay / NANOS_PER_MILLI else 0),
               env)
  }

  predicate Conclusive(d: Sql.Delivery, outcome: Outcome) {
    ClassifyAttempt(Attempt(d.attempt, d.maxRetry), outcome) in {AttemptSucceeded, AttemptFailed}
  }

  predicate SameClaim(a: Sql.Delivery, b: Sql.Delivery) {
    b == a.(committed := b.committed)
  }

  /** How any queue step moves the table: claims are not rewritten, payloads do not change, ids are not reused. */
  predicate DbGrows(a: Db, b: Db) {
    && a.nextId <= b.nextId
    && (forall t :: t in a.deliveries ==> t in b.deliveries && SameClaim(a.deliveries[t], b.deliveries[t]))
    && (forall id :: id in b.rows && id < a.nextId ==> id in a.rows && b.rows[id].payload == a.rows[id].payload)
    && (forall t :: t in a.deliveries ==> Sql.Count(a, t) <= Sql.Count(b, t))
  }

  lemma QueueStepGrows(db: Db, step: Sql.Step<Envelope>)
    requires Sql.Inv(db) && Sql.Enabled(db, step)
    ensures Sql.Inv(Sql.Apply(db, step)) && DbGrows(db, Sql.Apply(db, step))
  {
    Sql.StepKeepsInv(db, step);
  }

  lemma DbReflexive(db: Db)
    ensures DbGrows(db, db)
  {
  }

  // ---------- Rows and their owners ----------

  /** The statements that can take a row away from the generation that owns it. */
  predicate Takes(db: Db, step: Sql.Step<Envelope>, t: string)
    requires t in db.deliveries
  {
    match step
    case Settle(u, _, _) => u == t
    case Restore(u, _) => u == t
    case RecoverStale(now, cfg) => db.deliveries[t].id in db.rows && Sql.Stale(db.rows[db.deliveries[t].id], now, cfg)
    case _ => false
  }

  lemma OwnerKeepsRow(db: Db, step: Sql.Step<Envelope>, t: string)
    requires Sql.Inv(db) && Sql.Enabled(db, step) && t in db.deliveries && Sql.Owns(db.rows, db.deliveries[t])
    requires !Takes(db, step, t)
    ensures var after := Sql.Apply(db, step);
            && t in after.deliveries && Sql.Owns(after.rows, after.deliveries[t])
            && after.rows[db.deliveries[t].id] == db.rows[db.deliveries[t].id]
  {
  }

  lemma PendingRowWaits(db: Db, step: Sql.Step<Envelope>, id: nat)
    requires Sql.Inv(db) && Sql.Enabled(db, step) && id in db.rows && db.rows[id].state == Sql.Pending
    ensures var after := Sql.Apply(db, step);
            && id in after.rows
            && (if step.Claim? && step.id == id
                then after.rows[id] == Sql.ClaimRows(db.rows, id, step.token, step.now)[id]
                else after.rows[id] == db.rows[id])
  {
  }

  /** A processing row moves only in its own generation's name, or by stale recovery. */
  lemma ProcessingRowWaits(db: Db, step: Sql.Step<Envelope>, id: nat, t: string)
    requires Sql.Inv(db) && Sql.Enabled(db, step)
    requires id in db.rows && db.rows[id].state == Sql.Processing && db.rows[id].token == Some(t)
    requires !(step.Settle? && step.token == t) && !(step.Restore? && step.token == t)
    ensures var after := Sql.Apply(db, step);
            && id in after.rows && after.rows[id].payload == db.rows[id].payload
            && (|| after.rows[id] == db.rows[id]
                || (step.RecoverStale? && Sql.Stale(db.rows[id], step.now, step.cfg)
                    && after.rows[id] == Sql.RecoveredRow(db.rows[id], step.now)))
  {
  }

  /** A row recovered from a claim names that claim. */
  lemma RecoveredRowProves(db: Db, id: nat, now: int)
    requires Sql.Inv(db) && id in db.rows && db.rows[id].state == Sql.Processing && db.rows[id].token.Some?
    ensures var row := Sql.RecoveredRow(db.rows[id], now); row.state == Sql.Pending && Sql.RecoveryProof(row.token).1
  {
  }

  /** A row leaves the queue only when its owner settles it conclusively. */
  lemma UnsettledRowStays(db: Db, step: Sql.Step<Envelope>, id: nat)
    requires Sql.Inv(db) && Sql.Enabled(db, step) && id in db.rows && db.rows[id].state != Sql.Dead
    requires step.Settle? && db.deliveries[step.token].id == id && Sql.Owns(db.rows, db.deliveries[step.token]) ==>
               !Conclusive(db.deliveries[step.token], step.outcome)
    ensures var after := Sql.Apply(db, step);
            id in after.rows && after.rows[id].state != Sql.Dead && after.rows[id].payload == db.rows[id].payload
  {
  }
}
