/**
 The in-memory workflow store as the object it is: four maps changed in place under one mutex. Every method is proved
 against the transition functions, and together they keep every stored workflow and receipt consistent, across
 creation, settlement, discarding, pruning and reuse of an identifier.
 */
module MemoryStores {
  import opened Common
  import opened WorkflowTypes
  import opened ChainStore
  import B = BatchStore

  datatype StoredBatch = StoredBatch(state: BatchState, jobs: map<string, B.MemberStatus>)

  type Receipts = map<ReceiptKey, Receipt>

  // ---------- Specification functions ----------

  function WithoutWorkflow(receipts: Receipts, kind: WorkflowKind, id: string): Receipts {
    map k | k in receipts && !(k.kind == kind && k.workflowId == id) :: receipts[k]
  }

  function WithoutAll(receipts: Receipts, kind: WorkflowKind, ids: set<string>): Receipts {
    map k | k in receipts && !(k.kind == kind && k.workflowId in ids) :: receipts[k]
  }

  function ReceiptFor(receipts: Receipts, key: ReceiptKey): Option<Receipt> {
    if key in receipts then Some(receipts[key]) else None
  }

  function Record(receipts: Receipts, key: ReceiptKey, written: Option<Receipt>): Receipts {
    if written.Some? then receipts[key := written.value] else receipts
  }

  /** One batch with its own receipts, as the batch transitions see it. */
  function View(receipts: Receipts, id: string, b: StoredBatch): B.Batch {
    B.Batch(b.state, b.jobs, map m | m in b.jobs
      && ReceiptKey(BatchKind, id, m) in receipts :: receipts[ReceiptKey(BatchKind, id, m)])
  }

  predicate ChainExpired(st: ChainState, before: int) {
    (st.completed || st.failed) && st.updatedAt < before
  }

  function ExpiredChains(chains: map<string, ChainState>, before: int): set<string> {
    set c | c in chains && ChainExpired(chains[c], before)
  }

  function ExpiredBatches(batches: map<string, StoredBatch>, before: int): set<string> {
    set b | b in batches && BatchExpired(batches[b], before)
  }

  predicate BatchExpired(b: StoredBatch, before: int) {
    b.state.completed && b.state.updatedAt < before
  }

  // ---------- Consistency ----------

  /** A chain receipt describes the stored incarnation and what that chain decided about its node. */
  predicate ChainReceiptOk(st: ChainState, key: ReceiptKey, r: Receipt) {
    && r.kind == ChainKind && r.workflowId == key.workflowId && r.memberId == key.memberId
    && r.workflowDispatchId == st.dispatchId && r.workflowCreatedAt == st.createdAt
    && r.Supported() && r.owner.Valid() && !r.aggregateCancelled
    && Position(st.nodes, key.memberId).Some?
    && var index := Position(st.nodes, key.memberId).value;
       || (r.outcome == MemberSucceeded && index < st.nextIndex && r.aggregateCompleted == (index == |st.nodes| - 1))
       || (r.outcome == MemberFailed && st.failed && index == st.nextIndex && !r.aggregateCompleted)
  }

  predicate ChainsParts(chains: map<string, ChainState>, receipts: Receipts) {
    && (forall c :: c in chains ==> Sound(chains[c]) && chains[c].chainId == c)
    && (forall k :: k in receipts && k.kind == ChainKind ==>
          k.workflowId in chains && ChainReceiptOk(chains[k.workflowId], k, receipts[k]))
  }

  predicate BatchParts(b: B.Batch) {
    && B.Balanced(b)
    && forall m :: m in b.receipts ==> B.ReceiptTrue(b, m, b.receipts[m])
  }

  /** The counters are conserved and every receipt is truthful, sealed as one fact. */
  ghost predicate BatchOk(b: B.Batch) {
    forall k :: Unseal(k) ==> BatchParts(b)
  }

  ghost predicate BatchesParts(batches: map<string, StoredBatch>, receipts: Receipts) {
    && (forall id :: id in batches ==> batches[id].state.batchId == id && BatchOk(View(receipts, id, batches[id])))
    && (forall k :: k in receipts && k.kind == BatchKind ==>
          k.workflowId in batches && k.memberId in batches[k.workflowId].jobs)
  }

  ghost predicate ChainsOk(chains: map<string, ChainState>, receipts: Receipts) {
    forall k :: Unseal(k) ==> ChainsParts(chains, receipts)
  }

  ghost predicate BatchesOk(batches: map<string, StoredBatch>, receipts: Receipts) {
    forall k :: Unseal(k) ==> BatchesParts(batches, receipts)
  }

  // ---------- How the parts are kept ----------

  predicate SameKind(a: Receipts, b: Receipts, kind: WorkflowKind) {
    && (forall k :: k in a && k.kind == kind ==> k in b && b[k] == a[k])
    && (forall k :: k in b && k.kind == kind ==> k in a)
  }

  lemma DropChain(chains: map<string, ChainState>, receipts: Receipts, id: string)
    requires ChainsOk(chains, receipts)
    ensures ChainsOk(chains - {id}, WithoutWorkflow(receipts, ChainKind, id))
  {
  }

  lemma SameKindView(a: Receipts, b: Receipts, id: string, batch: StoredBatch)
    requires SameKind(a, b, BatchKind)
    ensures View(a, id, batch) == View(b, id, batch)
  {
    SameView(a, b, id, batch);
  }

  lemma OtherKindBatches(batches: map<string, StoredBatch>, receipts: Receipts, after: Receipts)
    requires BatchesOk(batches, receipts) && SameKind(receipts, after, BatchKind)
    ensures BatchesOk(batches, after)
  {
    assert Unseal(0);
    forall id | id in batches ensures Whole(BatchOk(View(after, id, batches[id]))) {
      SameKindView(receipts, after, id, batches[id]);
    }
  }

  /** A view depends only on the receipts of its own members. */
  lemma SameView(a: Receipts, b: Receipts, id: string, batch: StoredBatch)
    requires forall m :: m in batch.jobs ==>
        ReceiptFor(a, ReceiptKey(BatchKind, id, m)) == ReceiptFor(b, ReceiptKey(BatchKind, id, m))
    ensures View(a, id, batch) == View(b, id, batch)
  {
  }

  lemma DropBatch(batches: map<string, StoredBatch>, receipts: Receipts, id: string)
    requires BatchesOk(batches, receipts)
    ensures BatchesOk(batches - {id}, WithoutWorkflow(receipts, BatchKind, id))
  {
    assert Unseal(0);
    var after := WithoutWorkflow(receipts, BatchKind, id);
    forall i | i in batches - {id} ensures Whole(View(after, i, batches[i]) == View(receipts, i, batches[i])) {
      SameView(receipts, after, i, batches[i]);
    }
  }

  lemma CreateChainOk(chains: map<string, ChainState>, receipts: Receipts, st: ChainState)
    requires ChainsOk(chains, receipts) && Sound(st)
    ensures ChainsOk(chains[st.chainId := st], WithoutWorkflow(receipts, ChainKind, st.chainId))
  {
  }

  lemma AddBatch(batches: map<string, StoredBatch>, receipts: Receipts, id: string, b: StoredBatch)
    requires BatchesOk(batches, receipts) && id !in batches && b.state.batchId == id && BatchOk(View(receipts, id, b))
    ensures BatchesOk(batches[id := b], receipts)
  {
  }

  lemma BlankView(receipts: Receipts, record: BatchRecord, now: int)
    requires B.JobsOk(record.jobs)
    ensures var blank := B.NewBatch(record, now);
            BatchOk(View(WithoutWorkflow(receipts, BatchKind, record.batchId), record.batchId,
                         StoredBatch(blank.state, blank.jobs)))
  {
    var blank, after := B.NewBatch(record, now), WithoutWorkflow(receipts, BatchKind, record.batchId);
    B.NewBatchBalanced(record, now);
    assert View(after, record.batchId, StoredBatch(blank.state, blank.jobs)) == blank;
  }

  lemma CreateBatchOk(batches: map<string, StoredBatch>, receipts: Receipts, record: BatchRecord, now: int)
    requires BatchesOk(batches, receipts) && B.JobsOk(record.jobs)
    ensures var blank := B.NewBatch(record, now);
            Whole(BatchesOk(batches[record.batchId := StoredBatch(blank.state, blank.jobs)],
                            WithoutWorkflow(receipts, BatchKind, record.batchId)))
  {
    var id, blank := record.batchId, B.NewBatch(record, now);
    DropBatch(batches, receipts, id);
    BlankView(receipts, record, now);
    AddBatch(batches - {id}, WithoutWorkflow(receipts, BatchKind, id), id, StoredBatch(blank.state, blank.jobs));
    assert (batches - {id})[id := StoredBatch(blank.state, blank.jobs)]
           == batches[id := StoredBatch(blank.state, blank.jobs)];
  }

  /** A transition of one stored chain keeps all of them consistent. */
  lemma InstallChain(
      chains: map<string, ChainState>, receipts: Receipts, st: ChainState, key: ReceiptKey, written: Option<Receipt>)
    requires ChainsOk(chains, receipts) && st.chainId in chains && Sound(st) && Extends(chains[st.chainId], st)
    requires written.Some? ==>
               key.kind == ChainKind && key.workflowId == st.chainId && ChainReceiptOk(st, key, written.value)
    ensures ChainsOk(chains[st.chainId := st], Record(receipts, key, written))
  {
  }

  lemma OtherView(receipts: Receipts, key: ReceiptKey, written: Option<Receipt>, id: string, batch: StoredBatch)
    requires key.workflowId != id
    ensures View(Record(receipts, key, written), id, batch) == View(receipts, id, batch)
  {
  }

  lemma RecordedKeys(
      batches: map<string, StoredBatch>, receipts: Receipts, id: string, b: StoredBatch, key: ReceiptKey,
      written: Option<Receipt>)
    requires id in batches && key.workflowId == id && key.memberId in b.jobs
    requires forall m :: m in batches[id].jobs ==> m in b.jobs
    requires forall k :: k in receipts && k.kind == BatchKind ==>
        k.workflowId in batches && k.memberId in batches[k.workflowId].jobs
    ensures forall k :: k in Record(receipts, key, written) && k.kind == BatchKind ==>
              k.workflowId in batches[id := b] && k.memberId in batches[id := b][k.workflowId].jobs
  {
  }

  lemma OtherBatchesStay(
      batches: map<string, StoredBatch>, receipts: Receipts, id: string, key: ReceiptKey, written: Option<Receipt>)
    requires key.workflowId == id && forall i :: i in batches ==> BatchOk(View(receipts, i, batches[i]))
    ensures forall i :: i in batches && i != id ==> BatchOk(View(Record(receipts, key, written), i, batches[i]))
  {
    forall i | i in batches && i != id ensures BatchOk(View(Record(receipts, key, written), i, batches[i])) {
      OtherView(receipts, key, written, i, batches[i]);
    }
  }

  /** A transition of one stored batch keeps all of them consistent. */
  lemma InstallBatch(
      batches: map<string, StoredBatch>, receipts: Receipts, id: string, b: StoredBatch, key: ReceiptKey,
      written: Option<Receipt>)
    requires BatchesOk(batches, receipts) && id in batches && b.state.batchId == id
    requires key.workflowId == id && key.memberId in b.jobs && forall m :: m in batches[id].jobs ==> m in b.jobs
    requires BatchOk(View(Record(receipts, key, written), id, b))
    ensures BatchesOk(batches[id := b], Record(receipts, key, written))
  {
    assert Unseal(0);
    OtherBatchesStay(batches, receipts, id, key, written);
    RecordedKeys(batches, receipts, id, b, key, written);
  }

  lemma ReplaceBatch(batches: map<string, StoredBatch>, receipts: Receipts, id: string, b: StoredBatch)
    requires BatchesOk(batches, receipts) && id in batches && b.state.batchId == id
    requires (forall m :: m in batches[id].jobs ==> m in b.jobs) && BatchOk(View(receipts, id, b))
    ensures BatchesOk(batches[id := b], receipts)
  {
  }

  lemma OtherKindChains(chains: map<string, ChainState>, receipts: Receipts, after: Receipts)
    requires ChainsOk(chains, receipts)
    requires SameKind(receipts, after, ChainKind)
    ensures ChainsOk(chains, after)
  {
  }

  lemma SettleKeepsParts(b: B.Batch, member: string, outcome: MemberOutcome, claim: Claim, now: int)
    requires BatchOk(b)
    ensures BatchOk(B.SettleBatch(b, member, outcome, claim, now).0)
  {
    assert Unseal(0);
    B.SettleKeepsBalance(b, member, outcome, claim, now);
    SettleKeepsTruth(b, member, outcome, claim, now);
  }

  lemma SettleKeepsTruth(b: B.Batch, member: string, outcome: MemberOutcome, claim: Claim, now: int)
    requires forall m :: m in b.receipts ==> B.ReceiptTrue(b, m, b.receipts[m])
    requires b.state.cancelled ==> b.state.completed
    ensures var after := B.SettleBatch(b, member, outcome, claim, now).0;
            forall m :: m in after.receipts ==> B.ReceiptTrue(after, m, after.receipts[m])
  {
    var after := B.SettleBatch(b, member, outcome, claim, now).0;
    forall m | m in after.receipts ensures B.ReceiptTrue(after, m, after.receipts[m]) {
      SettleKeepsReceipt(b, member, outcome, claim, now, m);
    }
  }

  lemma SettleKeepsReceipt(b: B.Batch, member: string, outcome: MemberOutcome, claim: Claim, now: int, m: string)
    requires (m in b.receipts ==> B.ReceiptTrue(b, m, b.receipts[m])) && (b.state.cancelled ==> b.state.completed)
    ensures var after := B.SettleBatch(b, member, outcome, claim, now).0;
            m in after.receipts ==> B.ReceiptTrue(after, m, after.receipts[m])
  {
  }

  lemma CallKeepsParts(b: B.Batch, call: B.Call)
    requires BatchOk(b) && !call.Settle?
    ensures BatchOk(B.Perform(b, call))
  {
    assert Unseal(0);
    B.PerformKeepsBalance(b, call);
  }

  function WrittenBy(r: Result<B.SettleResult>): Option<Receipt> {
    if r.Ok? && r.value.claimedNow then r.value.receipt else None
  }

  /** A settlement writes its receipt where the view of its batch expects it. */
  lemma SettledView(
      receipts: Receipts, id: string, b: StoredBatch, member: string, outcome: MemberOutcome, claim: Claim, now: int)
    requires member in b.jobs
    ensures var (after, r) := B.SettleBatch(View(receipts, id, b), member, outcome, claim, now);
            && View(Record(receipts, ReceiptKey(BatchKind, id, member), WrittenBy(r)), id,
                    StoredBatch(after.state, after.jobs)) == after
            && after.state.batchId == b.state.batchId && (forall m :: m in b.jobs ==> m in after.jobs)
  {
  }

  lemma RecordKeepsChains(
      chains: map<string, ChainState>, receipts: Receipts, key: ReceiptKey, written: Option<Receipt>)
    requires ChainsOk(chains, receipts) && key.kind == BatchKind
    ensures ChainsOk(chains, Record(receipts, key, written))
  {
  }

  /** Replacing a stored batch by its settlement keeps the store consistent and is what its view shows. */
  lemma SettledOk(
      batches: map<string, StoredBatch>, receipts: Receipts, id: string, member: string, outcome: MemberOutcome,
      claim: Claim, now: int)
    requires BatchesOk(batches, receipts) && id in batches && member in batches[id].jobs
    ensures var (after, r) := B.SettleBatch(View(receipts, id, batches[id]), member, outcome, claim, now);
            var receipts' := Record(receipts, ReceiptKey(BatchKind, id, member), WrittenBy(r));
            && batches[id].state.batchId == id
               && BatchesOk(batches[id := StoredBatch(after.state, after.jobs)], receipts')
            && View(receipts', id, StoredBatch(after.state, after.jobs)) == after
  {
    var (after, r) := B.SettleBatch(View(receipts, id, batches[id]), member, outcome, claim, now);
    assert batches[id].state.batchId == id && BatchOk(View(receipts, id, batches[id])) by { assert Unseal(0); }
    SettledView(receipts, id, batches[id], member, outcome, claim, now);
    SettleKeepsParts(View(receipts, id, batches[id]), member, outcome, claim, now);
    InstallBatch(batches, receipts, id, StoredBatch(after.state, after.jobs), ReceiptKey(BatchKind, id, member),
      WrittenBy(r));
  }

  lemma CalledOk(batches: map<string, StoredBatch>, receipts: Receipts, id: string, call: B.Call)
    requires BatchesOk(batches, receipts) && id in batches && !call.Settle?
    ensures var after := B.Perform(View(receipts, id, batches[id]), call);
            && BatchesOk(batches[id := StoredBatch(after.state, after.jobs)], receipts)
            && View(receipts, id, StoredBatch(after.state, after.jobs)) == after
  {
    var before := View(receipts, id, batches[id]);
    var after := B.Perform(before, call);
    assert batches[id].state.batchId == id && BatchOk(before) by { assert Unseal(0); }
    CallKeepsParts(before, call);
    assert View(receipts, id, StoredBatch(after.state, after.jobs)).receipts == after.receipts;
    ReplaceBatch(batches, receipts, id, StoredBatch(after.state, after.jobs));
  }

  lemma StoredReceiptTrue(batches: map<string, StoredBatch>, receipts: Receipts, id: string, member: string)
    requires BatchesOk(batches, receipts) && id in batches && ReceiptKey(BatchKind, id, member) in receipts
    ensures B.ReceiptTrue(View(receipts, id, batches[id]), member, receipts[ReceiptKey(BatchKind, id, member)])
  {
    assert Unseal(0);
    assert member in View(receipts, id, batches[id]).receipts;
  }

  lemma OneLess(expired: set<string>, ids: set<string>, id: string)
    requires id in ids
    ensures expired - (ids - {id}) == if id in expired then (expired - ids) + {id} else expired - ids
  {
  }

  /** A pruning loop has removed exactly the entries named by `gone`, with their receipts. */
  ghost predicate Removed<V>(
      m0: map<string, V>, r0: Receipts, kind: WorkflowKind, gone: set<string>, m: map<string, V>, r: Receipts)
  {
    forall k :: Unseal(k) ==> m == m0 - gone && r == WithoutAll(r0, kind, gone)
  }

  lemma RemovedNone<V>(m: map<string, V>, r: Receipts, kind: WorkflowKind)
    ensures Removed(m, r, kind, {}, m, r)
  {
  }

  lemma RemovedEntry<V>(
      m0: map<string, V>, r0: Receipts, kind: WorkflowKind, gone: set<string>, m: map<string, V>, r: Receipts,
      id: string)
    requires Removed(m0, r0, kind, gone, m, r) && id in m
    ensures id in m0 && m[id] == m0[id]
  {
    assert Unseal(0);
  }

  lemma RemovedOneMore<V>(
      m0: map<string, V>, r0: Receipts, kind: WorkflowKind, gone: set<string>, m: map<string, V>, r: Receipts,
      id: string)
    requires Removed(m0, r0, kind, gone, m, r)
    ensures Removed(m0, r0, kind, gone + {id}, m - {id}, WithoutWorkflow(r, kind, id))
  {
  }

  lemma RemovedAll<V>(
      m0: map<string, V>, r0: Receipts, kind: WorkflowKind, gone: set<string>, m: map<string, V>, r: Receipts)
    requires Removed(m0, r0, kind, gone, m, r)
    ensures m == m0 - gone && r == WithoutAll(r0, kind, gone)
  {
    assert Unseal(0);
  }

  // ---------- The store ----------

  class MemoryStore {
    var chains: map<string, ChainState>
    var batches: map<string, StoredBatch>
    var callbacks: map<string, int>
    var receipts: Receipts

    /** Every stored chain, batch and receipt passes the checks that recovery makes of them. */
    ghost predicate Valid()
      reads this
    {
      ChainsOk(chains, receipts) && BatchesOk(batches, receipts)
    }

    constructor ()
      ensures Valid() && chains == map[] && batches == map[] && callbacks == map[] && receipts == map[]
    {
      chains, batches, callbacks, receipts := map[], map[], map[], map[];
    }

    method DeleteReceipts(kind: WorkflowKind, id: string)
      modifies `receipts
      ensures receipts == WithoutWorkflow(old(receipts), kind, id)
    {
      var keys := receipts.Keys;
      while keys != {}
        invariant keys <= old(receipts).Keys
        invariant receipts.Keys <= old(receipts).Keys && forall k :: k in receipts ==> receipts[k] == old(receipts)[k]
        invariant forall k :: k in old(receipts) ==>
                    (k in receipts <==> k in keys || !(k.kind == kind && k.workflowId == id))
        decreases |keys|
      {
        var key :| key in keys;
        if key.kind == kind && key.workflowId == id {
          receipts := receipts - {key};
        }
        keys := keys - {key};
      }
    }

    method CreateChain(record: ChainRecord, now: int) returns (ok: bool)
      requires Valid()
      modifies `chains, `receipts
      ensures Valid()
      ensures ok <==> record.chainId != "" && NodesOk(record.nodes)
      ensures ok ==> chains == old(chains)[record.chainId := NewChain(record, now)]
                     && receipts == WithoutWorkflow(old(receipts), ChainKind, record.chainId)
      ensures !ok ==> chains == old(chains) && receipts == old(receipts)
    {
      ok := ValidateChainRecord(record);
      if ok {
        DeleteReceipts(ChainKind, record.chainId);
        chains := chains[record.chainId := NewChain(record, now)];
        CreateChainOk(old(chains), old(receipts), NewChain(record, now));
        OtherKindBatches(batches, old(receipts), receipts);
      }
    }

    /** Advancement under the mutex: the stored chain and receipts move exactly by the advance transition. */
    method Advance(id: string, nodeId: string, claim: Claim, now: int) returns (r: Result<AdvanceResult>)
      requires Valid()
      modifies `chains, `receipts
      ensures Valid()
      ensures id !in old(chains) ==> r == Err(NotFound) && chains == old(chains) && receipts == old(receipts)
      ensures id in old(chains) ==>
                var key := ReceiptKey(ChainKind, id, nodeId);
                var t := AdvanceChain(old(chains)[id], ReceiptFor(old(receipts), key), nodeId, claim, now);
                r == t.result && chains == old(chains)[id := t.state]
                  && receipts == Record(old(receipts), key, t.written)
    {
      if id !in chains {
        return Err(NotFound);
      }
      var st, key := chains[id], ReceiptKey(ChainKind, id, nodeId);
      ghost var before := st;
      assert Sound(st) && st.chainId == id by { assert Unseal(0); }
      var success := SuccessDisposition(st, nodeId);
      if success.Err? {
        assert chains == chains[id := st];
        return Err(success.error);
      }
      var disp := AdvanceDisposition(st, nodeId);
      if disp.Err? {
        assert chains == chains[id := st];
        return Err(disp.error);
      }
      if !disp.value.claimable {
        assert chains == chains[id := st];
        if DispatchConflict(st.dispatchId, claim.dispatchId) {
          return Ok(AdvanceResult(st, None, false, false, false, None));
        }
        return Ok(AdvanceResult(st, disp.value.next, disp.value.done, success.value, false, ReceiptFor(receipts, key)));
      }
      if DispatchConflict(st.dispatchId, claim.dispatchId) {
        assert chains == chains[id := st];
        return Err(DispatchMismatch);
      }
      st := st.(nextIndex := st.nextIndex + 1, updatedAt := now);
      var done := st.nextIndex >= |st.nodes|;
      if done {
        st := st.(completed := true);
      }
      chains := chains[id := st];
      var receipt := MakeReceipt(ChainKind, id, st.dispatchId, st.createdAt, nodeId, MemberSucceeded, claim, done,
        false);
      receipts := Record(receipts, key, receipt);
      AdvanceEffect(before, ReceiptFor(old(receipts), key), nodeId, claim, now);
      InstallChain(old(chains), old(receipts), st, key, receipt);
      OtherKindBatches(batches, old(receipts), receipts);
      return Ok(AdvanceResult(st, if done then None else Some(st.nodes[st.nextIndex]), done, true, true, receipt));
    }

    method FailNode(
        id: string, nodeId: string, cause: Option<string>, claim: Claim, now: int) returns (r: Result<FailResult>)
      requires Valid()
      modifies `chains, `receipts
      ensures Valid()
      ensures id !in old(chains) ==> r == Err(NotFound) && chains == old(chains) && receipts == old(receipts)
      ensures id in old(chains) ==>
                var key := ReceiptKey(ChainKind, id, nodeId);
                var t := FailChainNode(old(chains)[id], ReceiptFor(old(receipts), key), nodeId, cause, claim, now);
                r == t.result && chains == old(chains)[id := t.state]
                  && receipts == Record(old(receipts), key, t.written)
    {
      if id !in chains {
        return Err(NotFound);
      }
      var st, key := chains[id], ReceiptKey(ChainKind, id, nodeId);
      ghost var before := st;
      assert Sound(st) && st.chainId == id by { assert Unseal(0); }
      var disp := FailureDisposition(st, nodeId);
      if disp.Err? {
        assert chains == chains[id := st];
        return Err(disp.error);
      }
      if !disp.value.claimable {
        assert chains == chains[id := st];
        if DispatchConflict(st.dispatchId, claim.dispatchId) {
          return Ok(FailResult(st, false, false, None));
        }
        return Ok(FailResult(st, disp.value.owned, false, ReceiptFor(receipts, key)));
      }
      if DispatchConflict(st.dispatchId, claim.dispatchId) {
        assert chains == chains[id := st];
        return Err(DispatchMismatch);
      }
      st := st.(failed := true, updatedAt := now);
      if cause.Some? {
        st := st.(failure := cause.value);
      }
      chains := chains[id := st];
      var receipt := MakeReceipt(ChainKind, id, st.dispatchId, st.createdAt, nodeId, MemberFailed, claim, false, false);
      receipts := Record(receipts, key, receipt);
      FailEffect(before, ReceiptFor(old(receipts), key), nodeId, cause, claim, now);
      InstallChain(old(chains), old(receipts), st, key, receipt);
      OtherKindBatches(batches, old(receipts), receipts);
      return Ok(FailResult(st, true, true, receipt));
    }

    method Fail(id: string, cause: Option<string>, now: int) returns (found: bool)
      requires Valid()
      modifies `chains
      ensures Valid() && found == (id in old(chains))
      ensures chains == if found then old(chains)[id := FailChain(old(chains)[id], cause, now)] else old(chains)
    {
      found := id in chains;
      if found && Live(chains[id]) {
        chains := chains[id := FailedWith(chains[id], cause, now)];
        assert Sound(old(chains)[id]) && old(chains)[id].chainId == id by { assert Unseal(0); }
        InstallChain(old(chains), receipts, chains[id], ReceiptKey(ChainKind, id, ""), None);
      }
    }

    method DiscardChain(id: string)
      requires Valid()
      modifies `chains, `receipts
      ensures Valid() && chains == old(chains) - {id} && receipts == WithoutWorkflow(old(receipts), ChainKind, id)
    {
      chains := chains - {id};
      DeleteReceipts(ChainKind, id);
      DropChain(old(chains), old(receipts), id);
      OtherKindBatches(batches, old(receipts), receipts);
    }

    method CreateBatch(record: BatchRecord, now: int) returns (ok: bool)
      requires Valid()
      modifies `batches, `receipts
      ensures Valid()
      ensures ok <==> record.batchId != "" && B.JobsOk(record.jobs)
      ensures ok ==> record.batchId in batches && batches == old(batches)[record.batchId := batches[record.batchId]]
                     && View(receipts, record.batchId, batches[record.batchId]) == B.NewBatch(record, now)
                     && receipts == WithoutWorkflow(old(receipts), BatchKind, record.batchId)
      ensures !ok ==> batches == old(batches) && receipts == old(receipts)
    {
      ok := B.ValidateBatchRecord(record);
      if ok {
        DeleteReceipts(BatchKind, record.batchId);
        var n := |record.jobs|;
        var jobs := B.BlankMembers(record.jobs);
        var st := BatchState(record.batchId, record.dispatchId, record.name, record.queue, record.allowFailed, n, n, 0,
                             0, false, false, record.createdAt, now);
        batches := batches[record.batchId := StoredBatch(st, jobs)];
        CreateBatchOk(old(batches), old(receipts), record, now);
        OtherKindChains(chains, old(receipts), receipts);
        assert View(receipts, record.batchId, batches[record.batchId]).receipts == map[];
      }
    }

    /** The counter updates of a first settlement, in the order they are made. */
    static method Count(before: BatchState, failure: bool, now: int) returns (st: BatchState)
      ensures st == B.Counted(before, failure, now)
    {
      st := before.(pending := before.pending - 1, processed := before.processed + 1);
      if failure {
        st := st.(failed := st.failed + 1);
      }
      if failure && !st.allowFailed {
        st := st.(cancelled := true, completed := true);
      } else if st.pending <= 0 {
        st := st.(completed := true);
      }
      st := st.(updatedAt := now);
    }

    /** Settlement under the mutex: the counters move exactly by the settlement transition of that batch. */
    method SettleMember(id: string, member: string, outcome: MemberOutcome, claim: Claim, now: int)
      returns (r: Result<B.SettleResult>)
      requires Valid()
      modifies `batches, `receipts
      ensures Valid()
      ensures outcome.MemberOther? ==> r == Err(UnsupportedOutcome)
      ensures !outcome.MemberOther? && id !in old(batches) ==> r == Err(NotFound)
      ensures id !in old(batches) || outcome.MemberOther? ==> batches == old(batches) && receipts == old(receipts)
      ensures id in old(batches) && !outcome.MemberOther? ==>
                && id in batches && batches == old(batches)[id := batches[id]]
                && (View(receipts, id, batches[id]), r) ==
                   B.SettleBatch(View(old(receipts), id, old(batches)[id]), member, outcome, claim, now)
    {
      if outcome.MemberOther? {
        return Err(UnsupportedOutcome);
      }
      if id !in batches {
        return Err(NotFound);
      }
      var b, key := batches[id], ReceiptKey(BatchKind, id, member);
      if member !in b.jobs {
        return Err(NotFound);
      }
      ghost var target := B.SettleBatch(View(receipts, id, b), member, outcome, claim, now);
      SettledOk(batches, receipts, id, member, outcome, claim, now);
      RecordKeepsChains(chains, receipts, ReceiptKey(BatchKind, id, member), WrittenBy(target.1));
      assert batches == batches[id := StoredBatch(b.state, b.jobs)];
      var js, failure := b.jobs[member], outcome == MemberFailed;
      var conflict := DispatchConflict(b.state.dispatchId, claim.dispatchId);
      if js.done {
        if conflict {
          return Ok(B.SettleResult(b.state, false, false, None));
        }
        batches := batches[id := b.(state := b.state.(updatedAt := now))];
        return Ok(B.SettleResult(batches[id].state, js.failed == failure, false, ReceiptFor(receipts, key)));
      }
      if conflict {
        return Err(DispatchMismatch);
      }
      var wasCompleted := b.state.completed;
      var st := Count(b.state, failure, now);
      batches := batches[id := StoredBatch(st, b.jobs[member := js.(done := true, failed := failure)])];
      var completes := !wasCompleted && st.completed;
      var receipt := MakeReceipt(BatchKind, id, st.dispatchId, st.createdAt, member, outcome, claim, completes,
                                 completes && st.cancelled);
      receipts := Record(receipts, key, receipt);
      assert st == target.0.state && batches[id].jobs == target.0.jobs && receipt == WrittenBy(target.1);
      return Ok(B.SettleResult(st, true, true, receipt));
    }

    method StartMember(id: string, member: string, now: int) returns (found: bool)
      requires Valid()
      modifies `batches
      ensures Valid() && found == (id in old(batches) && member in old(batches)[id].jobs)
      ensures !found ==> batches == old(batches)
      ensures found ==> && id in batches && batches == old(batches)[id := batches[id]]
                        && View(receipts, id, batches[id])
                           == B.StartMember(View(receipts, id, old(batches)[id]), member, now)
    {
      found := id in batches && member in batches[id].jobs;
      if found {
        var b := batches[id];
        batches := batches[id := StoredBatch(b.state.(updatedAt := now),
          b.jobs[member := b.jobs[member].(started := true)])];
        CalledOk(old(batches), receipts, id, B.Begin(member, now));
      }
    }

    method CancelBatch(id: string, now: int) returns (found: bool)
      requires Valid()
      modifies `batches
      ensures Valid() && found == (id in old(batches))
      ensures !found ==> batches == old(batches)
      ensures found ==> && id in batches && batches == old(batches)[id := batches[id]]
                        && View(receipts, id, batches[id]) == B.CancelBatch(View(receipts, id, old(batches)[id]), now)
    {
      found := id in batches;
      if found {
        var b := batches[id];
        batches := batches[id := b.(state := b.state.(cancelled := true, completed := true, updatedAt := now))];
        CalledOk(old(batches), receipts, id, B.Cancel(now));
      }
    }

    method DiscardBatch(id: string)
      requires Valid()
      modifies `batches, `receipts
      ensures Valid() && batches == old(batches) - {id} && receipts == WithoutWorkflow(old(receipts), BatchKind, id)
    {
      batches := batches - {id};
      DeleteReceipts(BatchKind, id);
      DropBatch(old(batches), old(receipts), id);
      OtherKindChains(chains, old(receipts), receipts);
    }

    /** In a consistent store a chain's receipt lookup never meets foreign or unreadable provenance. */
    method ChainReceipt(id: string, nodeId: string) returns (r: Result<Option<Receipt>>)
      requires Valid()
      ensures id !in chains ==> r == Err(NotFound)
      ensures id in chains ==> r == Ok(ReceiptFor(receipts, ReceiptKey(ChainKind, id, nodeId)))
    {
      if id !in chains {
        return Err(NotFound);
      }
      var key := ReceiptKey(ChainKind, id, nodeId);
      if key !in receipts {
        return Ok(None);
      }
      var receipt := receipts[key];
      assert ChainReceiptOk(chains[id], key, receipt) by { assert Unseal(0); }
      if receipt.workflowDispatchId != chains[id].dispatchId || receipt.workflowCreatedAt != chains[id].createdAt {
        return Err(ForeignIncarnation);
      }
      if !receipt.Supported() {
        return Err(UnsupportedReceipt);
      }
      return Ok(Some(receipt));
    }

    /** The same for a batch's receipt lookup. */
    method BatchReceipt(id: string, member: string) returns (r: Result<Option<Receipt>>)
      requires Valid()
      ensures id !in batches ==> r == Err(NotFound)
      ensures id in batches ==> r == Ok(ReceiptFor(receipts, ReceiptKey(BatchKind, id, member)))
    {
      if id !in batches {
        return Err(NotFound);
      }
      var key := ReceiptKey(BatchKind, id, member);
      if key !in receipts {
        return Ok(None);
      }
      var receipt := receipts[key];
      StoredReceiptTrue(batches, receipts, id, member);
      if receipt.workflowDispatchId != batches[id].state.dispatchId
         || receipt.workflowCreatedAt != batches[id].state.createdAt {
        return Err(ForeignIncarnation);
      }
      if !receipt.Supported() {
        return Err(UnsupportedReceipt);
      }
      return Ok(Some(receipt));
    }

    method MarkCallbackInvoked(key: string, now: int) returns (marked: bool)
      modifies `callbacks
      ensures marked == (key !in old(callbacks))
      ensures callbacks == if marked then old(callbacks)[key := now] else old(callbacks)
    {
      if key in callbacks {
        return false;
      }
      callbacks := callbacks[key := now];
      return true;
    }

    method PruneChains(before: int)
      requires Valid()
      modifies `chains, `receipts
      ensures Valid()
      ensures chains == old(chains) - ExpiredChains(old(chains), before)
      ensures receipts == WithoutAll(old(receipts), ChainKind, ExpiredChains(old(chains), before))
    {
      var ids := chains.Keys;
      ghost var expired, gone := ExpiredChains(chains, before), {};
      RemovedNone(chains, receipts, ChainKind);
      while ids != {}
        invariant Valid() && ids <= chains.Keys && gone == expired - ids
        invariant Removed(old(chains), old(receipts), ChainKind, gone, chains, receipts)
        decreases |ids|
      {
        var id :| id in ids;
        OneLess(expired, ids, id);
        RemovedEntry(old(chains), old(receipts), ChainKind, gone, chains, receipts, id);
        if ChainExpired(chains[id], before) {
          RemovedOneMore(old(chains), old(receipts), ChainKind, gone, chains, receipts, id);
          DiscardChain(id);
          gone := gone + {id};
        }
        ids := ids - {id};
      }
      RemovedAll(old(chains), old(receipts), ChainKind, gone, chains, receipts);
      assert gone == expired;
    }

    method PruneBatches(before: int)
      requires Valid()
      modifies `batches, `receipts
      ensures Valid()
      ensures batches == old(batches) - ExpiredBatches(old(batches), before)
      ensures receipts == WithoutAll(old(receipts), BatchKind, ExpiredBatches(old(batches), before))
    {
      var ids := batches.Keys;
      ghost var expired, gone := ExpiredBatches(batches, before), {};
      RemovedNone(batches, receipts, BatchKind);
      while ids != {}
        invariant Valid() && ids <= batches.Keys && gone == expired - ids
        invariant Removed(old(batches), old(receipts), BatchKind, gone, batches, receipts)
        decreases |ids|
      {
        var id :| id in ids;
        OneLess(expired, ids, id);
        RemovedEntry(old(batches), old(receipts), BatchKind, gone, batches, receipts, id);
        if BatchExpired(batches[id], before) {
          RemovedOneMore(old(batches), old(receipts), BatchKind, gone, batches, receipts, id);
          DiscardBatch(id);
          gone := gone + {id};
        }
        ids := ids - {id};
      }
      RemovedAll(old(batches), old(receipts), BatchKind, gone, batches, receipts);
      assert gone == expired;
    }

    /** Pruning removes exactly the expired terminal workflows with their receipts, and the expired callback markers. */
    method Prune(before: int)
      requires Valid()
      modifies this
      ensures Valid()
      ensures chains == old(chains) - ExpiredChains(old(chains), before)
      ensures batches == old(batches) - ExpiredBatches(old(batches), before)
      ensures receipts == WithoutAll(
                            WithoutAll(old(receipts), ChainKind, ExpiredChains(old(chains), before)),
                            BatchKind, ExpiredBatches(old(batches), before))
      ensures callbacks == map k | k in old(callbacks) && old(callbacks)[k] >= before :: old(callbacks)[k]
    {
      PruneChains(before);
      PruneBatches(before);
      PruneCallbacks(before);
    }

    method PruneCallbacks(before: int)
      modifies `callbacks
      ensures callbacks == map k | k in old(callbacks) && old(callbacks)[k] >= before :: old(callbacks)[k]
    {
      var keys := callbacks.Keys;
      while keys != {}
        invariant keys <= callbacks.Keys
        invariant callbacks
                  == map k | k in old(callbacks) && (k in keys || old(callbacks)[k] >= before) :: old(callbacks)[k]
        decreases |keys|
      {
        var key :| key in keys;
        if callbacks[key] < before {
          callbacks := callbacks - {key};
        }
        keys := keys - {key};
      }
    }
  }
}
