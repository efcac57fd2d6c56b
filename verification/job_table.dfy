/**
 The settlement code around the SQL rows: the finalization retries and the lineage repair of one processed delivery,
 as the loops that run them against a table whose statements may be lost before or after they are applied.
 */
module JobTables {
  import opened Common
  import opened Attempts
  import opened SqlRows

  /** What happens to one statement: executed and reported, failed unexecuted, or executed with its report lost. */
  datatype Fault = Clean | LostBefore | LostAfter

  /** The row was settled exactly once, at one of the clock readings. */
  ghost predicate SettledOnceBy<P>(
      before: map<nat, Row<P>>, after: map<nat, Row<P>>, d: Delivery, outcome: Outcome, clock: seq<int>) {
    exists k :: 0 <= k < |clock| && Owns(before, d) && after == SettleRows(before, d, outcome, clock[k])
  }

  class JobTable<P> {
    var rows: map<nat, Row<P>>

    constructor (rows: map<nat, Row<P>>)
      ensures this.rows == rows
    {
      this.rows := rows;
    }

    /** One delete or update fenced by id, state and token; it succeeds only when exactly one row was affected. */
    method Settle(d: Delivery, outcome: Outcome, now: int, fault: Fault) returns (ok: bool)
      modifies this
      ensures rows == if fault == LostBefore then old(rows) else SettleRows(old(rows), d, outcome, now)
      ensures ok <==> fault == Clean && Owns(old(rows), d)
    {
      if fault == LostBefore {
        return false;
      }
      var affected := 0;
      if d.id in rows && rows[d.id].state == Processing && rows[d.id].token == Some(d.token) {
        if outcome.Succeeded? {
          rows := rows - {d.id};
        } else {
          rows := rows[d.id := FailedRow(rows[d.id], d, outcome, now)];
        }
        affected := 1;
      }
      return fault == Clean && affected == 1;
    }

    /**
     Up to three ambiguous attempts settle the row at most once: the table is untouched or carries exactly one
     settlement, so the attempt is never charged twice.
     */
    method SettleWithRetry(d: Delivery, outcome: Outcome, clock: seq<int>, faults: seq<Fault>) returns (ok: bool)
      requires |clock| == |faults| == FINALIZE_RETRY_COUNT
      modifies this
      ensures rows == old(rows) || SettledOnceBy(old(rows), rows, d, outcome, clock)
      ensures ok ==> SettledOnceBy(old(rows), rows, d, outcome, clock)
      ensures !ok && rows == old(rows) && Owns(old(rows), d) ==>
                forall i :: 0 <= i < FINALIZE_RETRY_COUNT ==> faults[i] == LostBefore
    {
      for i := 0 to FINALIZE_RETRY_COUNT
        invariant rows == old(rows) || SettledOnceBy(old(rows), rows, d, outcome, clock)
        invariant rows == old(rows) && Owns(old(rows), d) ==> forall j :: 0 <= j < i ==> faults[j] == LostBefore
      {
        ok := Settle(d, outcome, clock[i], faults[i]);
        if ok {
          return true;
        }
      }
      return false;
    }

    /** The repair statement is additionally fenced by the attempt. */
    method Restore(d: Delivery, availableAt: int, fault: Fault) returns (ok: bool)
      modifies this
      ensures rows == if fault == LostBefore then old(rows) else RestoreRows(old(rows), d, availableAt)
      ensures ok <==> SettlementRecoveryToken(d).None? || (fault == Clean && Repairs(old(rows), d))
    {
      var token := SettlementRecoveryToken(d);
      if token.None? {
        return true;
      }
      if fault == LostBefore {
        return false;
      }
      var affected := 0;
      if d.id in rows && rows[d.id].state == Processing && rows[d.id].token == Some(d.token)
         && rows[d.id].attempt == d.attempt {
        rows := rows[d.id := rows[d.id].(state := Pending, availableAt := availableAt, startedAt := None,
          token := token)];
        affected := 1;
      }
      return fault == Clean && affected == 1;
    }

    /**
     Finalization of one processed delivery. Deferred facts are committed only when a settlement statement changed
     this generation's row; otherwise the row is left to lease expiry or repaired without charging an attempt.
     */
    method Finalize(
        d: Delivery, outcome: Outcome, clock: seq<int>, faults: seq<Fault>, availableAt: int, repairFault: Fault)
      returns (committed: bool)
      requires |clock| == |faults| == FINALIZE_RETRY_COUNT
      modifies this
      ensures committed ==> SettledOnceBy(old(rows), rows, d, outcome, clock)
      ensures || rows == old(rows)
              || SettledOnceBy(old(rows), rows, d, outcome, clock)
              || (!committed && Repairs(old(rows), d) && rows == RestoreRows(old(rows), d, availableAt))
      ensures d.id in rows ==>
                d.id in old(rows) && rows[d.id].attempt in {old(rows)[d.id].attempt, d.attempt, d.attempt + 1}
      ensures forall id :: id != d.id ==>
                (id in rows <==> id in old(rows)) && (id in rows ==> rows[id] == old(rows)[id])
    {
      committed := SettleWithRetry(d, outcome, clock, faults);
      if !committed {
        ghost var settled := rows;
        var _ := Restore(d, availableAt, repairFault);
        RepairAfterSettle(old(rows), settled, d, outcome, clock, availableAt);
      }
    }
  }

  lemma RepairAfterSettle<P>(
      before: map<nat, Row<P>>, settled: map<nat, Row<P>>, d: Delivery, outcome: Outcome, clock: seq<int>,
      availableAt: int)
    requires settled == before || SettledOnceBy(before, settled, d, outcome, clock)
    ensures settled == before || RestoreRows(settled, d, availableAt) == settled
  {
  }
}
