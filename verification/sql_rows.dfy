/**
 The fenced SQL delivery protocol. A queue row is pending, processing or dead; every claim writes a fresh
 token, and every settlement statement names the token it settles. Each statement is one atomic guarded step.
 A statement that reports an error may or may not have been applied, so a run may repeat or omit any
 settlement step, and stale-lease recovery may overlap a handler that is still running.
 */
module SqlRows {
  import opened Common
  import opened Attempts

  const RECOVERY_MARKER := "queue:internal:stale-processing-recovery:v1"
  const TOKEN_LENGTH := 32
  const FINALIZE_RETRY_COUNT := 3

  datatype RowState = Pending | Processing | Dead

  datatype Row<P> = Row(
    state: RowState,
    attempt: nat,
    maxRetry: nat,
    backoff: nat,
    timeoutSeconds: Option<int>,
    availableAt: int,
    startedAt: Option<int>,
    token: Option<string>,
    payload: P)

  /** The worker's copy of the row it claimed, with the provenance it carries to settlement. */
  datatype Delivery = Delivery(
    id: nat,
    token: string,
    attempt: nat,
    maxRetry: nat,
    backoff: nat,
    recovered: bool,
    recoveryToken: string,
    committed: bool)

  datatype FailureSettlement = FailureSettlement(state: RowState, attempt: nat, availableAt: int)

  datatype LeaseConfig = LeaseConfig(grace: nat, leaseNoTimeout: nat)

  // ---------- Tokens ----------

  predicate HexDigit(c: char) {
    '0' <= c <= '9' || 'a' <= c <= 'f'
  }

  /** Only the canonical lowercase encoding generated for a claim names a generation. */
  predicate ValidToken(token: string) {
    |token| == TOKEN_LENGTH && forall i :: 0 <= i < |token| ==> HexDigit(token[i])
  }

  /** The earlier generation named by a pending row, and whether the row was recovered at all. */
  function RecoveryProof(token: Option<string>): (string, bool) {
    if token.None? then ("", false)
    else if token.value == RECOVERY_MARKER then ("", true)
    else if ValidToken(token.value) then (token.value, true)
    else ("", false)
  }

  /** The token that hands a delivery's inherited proof back to its row. */
  function InheritedToken(d: Delivery): Option<string> {
    if !d.recovered then None
    else if d.recoveryToken == "" then Some(RECOVERY_MARKER)
    else if ValidToken(d.recoveryToken) then Some(d.recoveryToken)
    else None
  }

  function PendingRecoveryToken(d: Delivery, s: FailureSettlement): Option<string> {
    if s.state != Pending || s.attempt != d.attempt then None
    else if d.committed then (if ValidToken(d.token) then Some(d.token) else None)
    else InheritedToken(d)
  }

  /** Lineage repair applies only to a recovered delivery that did not itself commit application state. */
  function SettlementRecoveryToken(d: Delivery): Option<string> {
    if d.committed then None else InheritedToken(d)
  }

  // ---------- Statements ----------

  function ClassifyFailure(d: Delivery, outcome: Outcome, now: int): FailureSettlement
    requires outcome.Errored?
  {
    match ClassifyAttempt(Attempt(d.attempt, d.maxRetry), outcome)
    case AttemptFailed => FailureSettlement(Dead, d.attempt + 1, 0)
    case AttemptRedeliver => FailureSettlement(Pending, d.attempt, now + d.backoff)
    case AttemptRetry => FailureSettlement(Pending, d.attempt + 1, now + d.backoff)
  }

  /** The WHERE clause of every settlement statement. */
  predicate Owns<P>(rows: map<nat, Row<P>>, d: Delivery) {
    d.id in rows && rows[d.id].state == Processing && rows[d.id].token == Some(d.token)
  }

  function FailedRow<P>(row: Row<P>, d: Delivery, outcome: Outcome, now: int): Row<P>
    requires outcome.Errored?
  {
    var s := ClassifyFailure(d, outcome, now);
    if s.state == Dead then row.(state := Dead, attempt := s.attempt, startedAt := None, token := None)
    else row.(state := Pending, attempt := s.attempt, availableAt := s.availableAt, startedAt := None,
              token := PendingRecoveryToken(d, s))
  }

  /** One application of the delete or update that settles a delivery. */
  function SettleRows<P>(rows: map<nat, Row<P>>, d: Delivery, outcome: Outcome, now: int): map<nat, Row<P>> {
    if !Owns(rows, d) then rows
    else if outcome.Succeeded? then rows - {d.id}
    else rows[d.id := FailedRow(rows[d.id], d, outcome, now)]
  }

  /** The repair statement is fenced by token and attempt. */
  predicate Repairs<P>(rows: map<nat, Row<P>>, d: Delivery) {
    Owns(rows, d) && rows[d.id].attempt == d.attempt && SettlementRecoveryToken(d).Some?
  }

  function RestoreRows<P>(rows: map<nat, Row<P>>, d: Delivery, availableAt: int): map<nat, Row<P>> {
    if !Repairs(rows, d) then rows
    else rows[d.id := rows[d.id].(state := Pending, availableAt := availableAt, startedAt := None,
                                  token := SettlementRecoveryToken(d))]
  }

  predicate Stale<P>(row: Row<P>, now: int, cfg: LeaseConfig) {
    var cutoff := if now - cfg.leaseNoTimeout < 0 then 0 else now - cfg.leaseNoTimeout;
    && row.state == Processing
    && row.startedAt.Some?
    && if row.timeoutSeconds.Some? && row.timeoutSeconds.value > 0
       then row.startedAt.value + row.timeoutSeconds.value * 1000 + cfg.grace <= now
       else row.startedAt.value <= cutoff
  }

  function RecoveredRow<P>(row: Row<P>, now: int): Row<P> {
    row.(state := Pending, availableAt := now, startedAt := None,
         token := if row.token.Some? && row.token.value != "" then row.token else Some(RECOVERY_MARKER))
  }

  function RecoverRows<P>(rows: map<nat, Row<P>>, now: int, cfg: LeaseConfig): map<nat, Row<P>> {
    map id | id in rows :: if Stale(rows[id], now, cfg) then RecoveredRow(rows[id], now) else rows[id]
  }

  predicate Claimable<P>(rows: map<nat, Row<P>>, id: nat, now: int) {
    id in rows && rows[id].state == Pending && rows[id].availableAt <= now
  }

  function ClaimRows<P>(rows: map<nat, Row<P>>, id: nat, token: string, now: int): map<nat, Row<P>>
    requires id in rows
  {
    rows[id := rows[id].(state := Processing, startedAt := Some(now), token := Some(token))]
  }

  function ClaimedDelivery<P>(id: nat, row: Row<P>, token: string): Delivery {
    var (earlier, recovered) := RecoveryProof(row.token);
    Delivery(id, token, row.attempt, row.maxRetry, row.backoff, recovered, earlier, false)
  }

  // ---------- Runs ----------

  /**
   The database with the record of every generation ever claimed. `settled` counts, for each generation,
   the statements that changed a row in its name.
   */
  datatype Db<P> = Db(
    rows: map<nat, Row<P>>,
    nextId: nat,
    deliveries: map<string, Delivery>,
    settled: map<string, nat>)

  datatype Step<P> =
    | Insert(maxRetry: nat, backoff: nat, timeoutSeconds: Option<int>, availableAt: int, payload: P)
    | Claim(id: nat, token: string, now: int)
    | RecoverStale(now: int, cfg: LeaseConfig)
    | Commit(token: string)
    | Settle(token: string, outcome: Outcome, now: int)
    | Restore(token: string, availableAt: int)

  /** Tokens are drawn from 128 random bits and assumed fresh; row ids are never reused. */
  predicate Enabled<P>(db: Db<P>, step: Step<P>) {
    match step
    case Insert(_, _, _, _, _) => true
    case Claim(id, token, now) => Claimable(db.rows, id, now) && ValidToken(token) && token !in db.deliveries
    case RecoverStale(_, _) => true
    case Commit(token) => token in db.deliveries
    case Settle(token, _, _) => token in db.deliveries
    case Restore(token, _) => token in db.deliveries
  }

  function Count(db: Db, token: string): nat {
    if token in db.settled then db.settled[token] else 0
  }

  function Apply<P>(db: Db<P>, step: Step<P>): Db<P>
    requires Enabled(db, step)
  {
    match step
    case Insert(maxRetry, backoff, timeoutSeconds, availableAt, payload) =>
      var row := Row(Pending, 0, maxRetry, backoff, timeoutSeconds, availableAt, None, None, payload);
      db.(rows := db.rows[db.nextId := row], nextId := db.nextId + 1)
    case Claim(id, token, now) =>
      db.(rows := ClaimRows(db.rows, id, token, now),
          deliveries := db.deliveries[token := ClaimedDelivery(id, db.rows[id], token)])
    case RecoverStale(now, cfg) =>
      db.(rows := RecoverRows(db.rows, now, cfg))
    case Commit(token) =>
      db.(deliveries := db.deliveries[token := db.deliveries[token].(committed := true)])
    case Settle(token, outcome, now) =>
      var d := db.deliveries[token];
      var hit := if Owns(db.rows, d) then 1 else 0;
      db.(rows := SettleRows(db.rows, d, outcome, now), settled := db.settled[token := Count(db, token) + hit])
    case Restore(token, availableAt) =>
      var d := db.deliveries[token];
      var hit := if Repairs(db.rows, d) then 1 else 0;
      db.(rows := RestoreRows(db.rows, d, availableAt), settled := db.settled[token := Count(db, token) + hit])
  }

  predicate Empty(db: Db) {
    db.rows == map[] && db.deliveries == map[] && db.settled == map[]
  }

  ghost predicate IsRun<P>(db: Db<P>, steps: seq<Step<P>>, end: Db<P>)
    decreases |steps|
  {
    if steps == [] then end == db
    else Enabled(db, steps[0]) && IsRun(Apply(db, steps[0]), steps[1..], end)
  }

  // ---------- The invariant ----------

  /** A generation claimed from this row at the row's current attempt. */
  predicate OfRow(db: Db, id: nat, attempt: nat, token: string) {
    token in db.deliveries && db.deliveries[token].id == id && db.deliveries[token].attempt == attempt
  }

  /** The token of a pending row is null, the marker, or an earlier claim of that row at its current attempt. */
  predicate TruthfulToken(db: Db, id: nat, row: Row) {
    match row.state
    case Dead => row.token == None
    case Processing =>
      && row.token.Some? && row.startedAt.Some?
      && OfRow(db, id, row.attempt, row.token.value)
      && db.deliveries[row.token.value].maxRetry == row.maxRetry
      && Count(db, row.token.value) == 0
    case Pending =>
      row.token.None? || row.token.value == RECOVERY_MARKER || OfRow(db, id, row.attempt, row.token.value)
  }

  predicate WithinBudget(row: Row) {
    row.attempt <= row.maxRetry + (if row.state == Dead then 1 else 0)
  }

  predicate RowsOk(db: Db) {
    forall id :: id in db.rows ==>
      id < db.nextId && TruthfulToken(db, id, db.rows[id]) && WithinBudget(db.rows[id])
  }

  /** What a delivery inherited is a generation of its own row and attempt. */
  predicate DeliveryOk(db: Db, token: string)
    requires token in db.deliveries
  {
    var d := db.deliveries[token];
    && d.token == token && ValidToken(token) && d.id < db.nextId && d.attempt <= d.maxRetry
    && (d.recoveryToken != "" ==>
          d.recovered && ValidToken(d.recoveryToken) && OfRow(db, d.id, d.attempt, d.recoveryToken))
  }

  predicate DeliveriesOk(db: Db) {
    forall t :: t in db.deliveries ==> DeliveryOk(db, t)
  }

  predicate SettledOnce(db: Db) {
    forall t :: t in db.settled ==> t in db.deliveries && db.settled[t] <= 1
  }

  predicate Inv(db: Db) {
    RowsOk(db) && DeliveriesOk(db) && SettledOnce(db)
  }

  lemma MarkerIsNoToken()
    ensures !ValidToken(RECOVERY_MARKER) && RECOVERY_MARKER != "" && !ValidToken("")
  {
  }

  lemma InsertKeepsInv<P>(db: Db<P>, step: Step<P>)
    requires Inv(db) && Enabled(db, step) && step.Insert?
    ensures Inv(Apply(db, step))
  {
  }

  lemma ClaimKeepsInv<P>(db: Db<P>, step: Step<P>)
    requires Inv(db) && Enabled(db, step) && step.Claim?
    ensures Inv(Apply(db, step))
  {
  }

  lemma RecoverKeepsInv<P>(db: Db<P>, step: Step<P>)
    requires Inv(db) && Enabled(db, step) && step.RecoverStale?
    ensures Inv(Apply(db, step))
  {
  }

  lemma CommitKeepsInv<P>(db: Db<P>, step: Step<P>)
    requires Inv(db) && Enabled(db, step) && step.Commit?
    ensures Inv(Apply(db, step))
  {
  }

  lemma SettleKeepsInv<P>(db: Db<P>, step: Step<P>)
    requires Inv(db) && Enabled(db, step) && step.Settle?
    ensures Inv(Apply(db, step))
  {
    MarkerIsNoToken();
  }

  lemma RestoreKeepsInv<P>(db: Db<P>, step: Step<P>)
    requires Inv(db) && Enabled(db, step) && step.Restore?
    ensures Inv(Apply(db, step))
  {
  }

  lemma StepKeepsInv<P>(db: Db<P>, step: Step<P>)
    requires Inv(db) && Enabled(db, step)
    ensures Inv(Apply(db, step))
  {
    match step
    case Insert(_, _, _, _, _) => InsertKeepsInv(db, step);
    case Claim(_, _, _) => ClaimKeepsInv(db, step);
    case RecoverStale(_, _) => RecoverKeepsInv(db, step);
    case Commit(_) => CommitKeepsInv(db, step);
    case Settle(_, _, _) => SettleKeepsInv(db, step);
    case Restore(_, _) => RestoreKeepsInv(db, step);
  }

  lemma {:induction false} RunKeepsInv<P>(db: Db<P>, steps: seq<Step<P>>, end: Db<P>)
    requires Inv(db) && IsRun(db, steps, end)
    ensures Inv(end)
    decreases |steps|
  {
    if steps != [] {
      StepKeepsInv(db, steps[0]);
      RunKeepsInv(Apply(db, steps[0]), steps[1..], end);
    }
  }

  // ---------- Token fencing ----------

  lemma StepKeepsLost<P>(db: Db<P>, step: Step<P>, t: string)
    requires Inv(db) && Enabled(db, step) && t in db.deliveries && !Owns(db.rows, db.deliveries[t])
    ensures var after := Apply(db, step);
            t in after.deliveries && !Owns(after.rows, after.deliveries[t]) && Count(after, t) == Count(db, t)
  {
  }

  /**
   Fencing over every run: a generation that no longer owns its row (settled, repaired, recovered or reclaimed)
   never owns a row again, and none of its later settlement statements changes anything.
   */
  lemma {:induction false} LostGenerationStaysFenced<P>(
      db: Db<P>, steps: seq<Step<P>>, end: Db<P>, t: string, outcome: Outcome, now: int)
    requires Inv(db) && IsRun(db, steps, end)
    requires t in db.deliveries && !Owns(db.rows, db.deliveries[t])
    ensures t in end.deliveries && Count(end, t) == Count(db, t)
    ensures Apply(end, Settle(t, outcome, now)).rows == end.rows
    ensures Apply(end, Restore(t, now)).rows == end.rows
    decreases |steps|
  {
    if steps != [] {
      StepKeepsInv(db, steps[0]);
      StepKeepsLost(db, steps[0], t);
      LostGenerationStaysFenced(Apply(db, steps[0]), steps[1..], end, t, outcome, now);
    }
  }

  /**
   From an empty table every generation settles its row at most once, however often its settlement statements
   are repeated, and once it has settled it owns nothing.
   */
  lemma SettlesAtMostOnce<P>(db: Db<P>, steps: seq<Step<P>>, end: Db<P>, t: string)
    requires Empty(db) && IsRun(db, steps, end) && t in end.deliveries
    ensures Count(end, t) <= 1
    ensures Count(end, t) == 1 ==> !Owns(end.rows, end.deliveries[t])
  {
    RunKeepsInv(db, steps, end);
  }

  /** Every pending row of every reachable table carries truthful lineage and stays within its retry budget. */
  lemma LineageAndBudget<P>(db: Db<P>, steps: seq<Step<P>>, end: Db<P>, id: nat)
    requires Empty(db) && IsRun(db, steps, end) && id in end.rows
    ensures var row := end.rows[id];
            && (row.state == Pending ==>
                  || row.token.None?
                  || row.token == Some(RECOVERY_MARKER)
                  || OfRow(end, id, row.attempt, row.token.value))
            && (row.state != Dead ==> row.attempt <= row.maxRetry)
            && row.attempt <= row.maxRetry + 1
  {
    RunKeepsInv(db, steps, end);
  }

  // ---------- Retry accounting ----------

  /** The attempts one step charges to a row: one exactly when the owner settles it as retried or failed. */
  function Charge<P>(db: Db<P>, step: Step<P>, id: nat): nat
    requires Enabled(db, step)
  {
    if step.Settle? && db.deliveries[step.token].id == id && Owns(db.rows, db.deliveries[step.token])
       && ClassifyAttempt(Attempt(db.deliveries[step.token].attempt, db.deliveries[step.token].maxRetry), step.outcome)
          in {AttemptRetry, AttemptFailed}
    then 1 else 0
  }

  function Charged<P>(db: Db<P>, steps: seq<Step<P>>, id: nat): nat
    decreases |steps|
  {
    if steps == [] || !Enabled(db, steps[0]) then 0
    else Charge(db, steps[0], id) + Charged(Apply(db, steps[0]), steps[1..], id)
  }

  lemma StepChargesRow<P>(db: Db<P>, step: Step<P>, id: nat)
    requires Inv(db) && Enabled(db, step) && id < db.nextId
    ensures var after := Apply(db, step);
            && (id !in db.rows ==> id !in after.rows)
            && (id in after.rows ==> after.rows[id].attempt == db.rows[id].attempt + Charge(db, step, id))
  {
  }

  /**
   Over every run a surviving row's attempt has grown by exactly the number of retried or failed settlements
   its owners made: claims, stale recovery, same-attempt redelivery and lineage repair charge nothing.
   */
  lemma {:induction false} AttemptCountsCharges<P>(db: Db<P>, steps: seq<Step<P>>, end: Db<P>, id: nat)
    requires Inv(db) && IsRun(db, steps, end) && id < db.nextId
    ensures id in end.rows ==> id in db.rows && end.rows[id].attempt == db.rows[id].attempt + Charged(db, steps, id)
    decreases |steps|
  {
    if steps != [] {
      StepKeepsInv(db, steps[0]);
      StepChargesRow(db, steps[0], id);
      AttemptCountsCharges(Apply(db, steps[0]), steps[1..], end, id);
    }
  }

  // ---------- Inherited lineage ----------

  /** The recovery proof a row carries: its own token while pending, its worker's inheritance while processing. */
  function Lineage<P>(db: Db<P>, id: nat): Option<string> {
    if id !in db.rows || db.rows[id].state == Dead || db.rows[id].token.None? then None
    else if db.rows[id].state == Pending then db.rows[id].token
    else if db.rows[id].token.value in db.deliveries then InheritedToken(db.deliveries[db.rows[id].token.value])
    else None
  }

  /**
   Steps that may end or replace a row's lineage: stale recovery, the owner's commit, and any settlement but a
   redelivery.
   */
  predicate Disturbs<P>(db: Db<P>, step: Step<P>, id: nat)
    requires Enabled(db, step)
  {
    match step
    case RecoverStale(now, cfg) => id in db.rows && Stale(db.rows[id], now, cfg)
    case Commit(token) => db.deliveries[token].id == id && Owns(db.rows, db.deliveries[token])
    case Settle(token, outcome, _) =>
      var d := db.deliveries[token];
      d.id == id && Owns(db.rows, d)
        && (d.committed || ClassifyAttempt(Attempt(d.attempt, d.maxRetry), outcome) != AttemptRedeliver)
    case _ => false
  }

  predicate Undisturbed<P>(db: Db<P>, steps: seq<Step<P>>, id: nat)
    decreases |steps|
  {
    steps != [] && Enabled(db, steps[0]) ==>
      !Disturbs(db, steps[0], id) && Undisturbed(Apply(db, steps[0]), steps[1..], id)
  }

  lemma StepKeepsLineage<P>(db: Db<P>, step: Step<P>, id: nat)
    requires Inv(db) && Enabled(db, step) && id in db.rows && !Disturbs(db, step, id)
    ensures id in Apply(db, step).rows && Lineage(Apply(db, step), id) == Lineage(db, id)
  {
  }

  /**
   However many generations claim a row, are redelivered or have their lineage repaired, an inherited generation
   survives until a stale lease, a committing generation or an attempt-ending settlement replaces it.
   */
  lemma {:induction false} RedeliveryKeepsLineage<P>(db: Db<P>, steps: seq<Step<P>>, end: Db<P>, id: nat)
    requires Inv(db) && IsRun(db, steps, end) && id in db.rows && Undisturbed(db, steps, id)
    ensures id in end.rows && Lineage(end, id) == Lineage(db, id)
    decreases |steps|
  {
    if steps != [] {
      StepKeepsInv(db, steps[0]);
      StepKeepsLineage(db, steps[0], id);
      RedeliveryKeepsLineage(Apply(db, steps[0]), steps[1..], end, id);
    }
  }

  /** A generation that committed application state becomes the lineage of its own redelivered row. */
  lemma CommittedGenerationBecomesLineage<P>(db: Db<P>, t: string, outcome: Outcome, now: int)
    requires Inv(db) && t in db.deliveries && Owns(db.rows, db.deliveries[t]) && db.deliveries[t].committed
    requires outcome.Errored? && outcome.failure.uncommitted
    ensures Lineage(Apply(db, Settle(t, outcome, now)), db.deliveries[t].id) == Some(t)
  {
  }
}
