/**
 The transitions of one stored chain: record validation, the three node dispositions, and the atomic advance and
 failure operations that arbitrate which delivery owns a node's outcome.
 */
module ChainStore {
  import opened Common
  import opened WorkflowTypes

  // ---------- Node order ----------

  function PositionFrom(nodes: seq<ChainNode>, nodeId: string, start: nat): (r: Option<nat>)
    requires start <= |nodes|
    ensures r.Some? ==> start <= r.value < |nodes| && nodes[r.value].nodeId == nodeId
    ensures r.Some? ==> forall i :: start <= i < r.value ==> nodes[i].nodeId != nodeId
    ensures r.None? ==> forall i :: start <= i < |nodes| ==> nodes[i].nodeId != nodeId
    decreases |nodes| - start
  {
    if start == |nodes| then None
    else if nodes[start].nodeId == nodeId then Some(start)
    else PositionFrom(nodes, nodeId, start + 1)
  }

  function Position(nodes: seq<ChainNode>, nodeId: string): Option<nat> {
    PositionFrom(nodes, nodeId, 0)
  }

  /** The scan over persisted nodes finds the first node with the requested identifier. */
  method ChainNodePosition(nodes: seq<ChainNode>, nodeId: string) returns (index: nat, found: bool)
    ensures found ==> Position(nodes, nodeId) == Some(index)
    ensures !found ==> index == 0 && forall i :: 0 <= i < |nodes| ==> nodes[i].nodeId != nodeId
  {
    for i := 0 to |nodes|
      invariant Position(nodes, nodeId) == PositionFrom(nodes, nodeId, i)
      invariant forall j :: 0 <= j < i ==> nodes[j].nodeId != nodeId
    {
      if nodes[i].nodeId == nodeId {
        return i, true;
      }
    }
    return 0, false;
  }

  predicate DistinctNodes(nodes: seq<ChainNode>) {
    forall i, j :: 0 <= i < j < |nodes| ==> nodes[i].nodeId != nodes[j].nodeId
  }

  predicate NodesOk(nodes: seq<ChainNode>) {
    |nodes| > 0 && (forall i :: 0 <= i < |nodes| ==> nodes[i].nodeId != "") && DistinctNodes(nodes)
  }

  /** Every node of an unambiguous chain is found at its own place. */
  lemma PositionOfNode(nodes: seq<ChainNode>, i: nat)
    requires DistinctNodes(nodes) && i < |nodes|
    ensures Position(nodes, nodes[i].nodeId) == Some(i)
  {
  }

  /** The validation loop accepts exactly the records whose nodes are present, named and distinct. */
  method ValidateChainRecord(record: ChainRecord) returns (ok: bool)
    ensures ok <==> record.chainId != "" && NodesOk(record.nodes)
  {
    if record.chainId == "" || |record.nodes| == 0 {
      return false;
    }
    var seen: set<string> := {};
    for i := 0 to |record.nodes|
      invariant seen == set j | 0 <= j < i :: record.nodes[j].nodeId
      invariant forall j :: 0 <= j < i ==> record.nodes[j].nodeId != ""
      invariant DistinctNodes(record.nodes[..i])
    {
      var id := record.nodes[i].nodeId;
      if id == "" {
        return false;
      }
      if id in seen {
        return false;
      }
      seen := seen + {id};
    }
    assert record.nodes[..|record.nodes|] == record.nodes;
    return true;
  }

  predicate ValidChainState(st: ChainState) {
    && st.chainId != ""
    && NodesOk(st.nodes)
    && 0 <= st.nextIndex <= |st.nodes|
    && st.completed == (st.nextIndex == |st.nodes|)
  }

  /** The states the store itself produces: valid, and never both completed and failed. */
  predicate Sound(st: ChainState) {
    ValidChainState(st) && !(st.completed && st.failed)
  }

  predicate Live(st: ChainState) {
    !st.completed && !st.failed
  }

  // ---------- Dispositions ----------

  function SuccessDisposition(st: ChainState, nodeId: string): Result<bool> {
    if !ValidChainState(st) then Err(InvalidState)
    else
      match Position(st.nodes, nodeId)
      case None => Err(UnknownMember)
      case Some(index) => if index > st.nextIndex then Err(ReceivedBefore) else Ok(index < st.nextIndex)
  }

  datatype AdvanceDisp = AdvanceDisp(next: Option<ChainNode>, done: bool, claimable: bool)

  function AdvanceDisposition(st: ChainState, nodeId: string): Result<AdvanceDisp> {
    match Position(st.nodes, nodeId)
    case None => Err(UnknownMember)
    case Some(index) =>
      if st.completed then Ok(AdvanceDisp(None, true, false))
      else if st.nextIndex < 0 || st.nextIndex >= |st.nodes| then Err(InvalidState)
      else if st.failed then
        if index > st.nextIndex then Err(ReceivedAfterFailure) else Ok(AdvanceDisp(None, true, false))
      else if index > st.nextIndex then Err(ReceivedBefore)
      else if index == st.nextIndex then Ok(AdvanceDisp(None, false, true))
      else Ok(AdvanceDisp(Some(st.nodes[st.nextIndex]), false, false))
  }

  datatype FailureDisp = FailureDisp(owned: bool, claimable: bool)

  function FailureDisposition(st: ChainState, nodeId: string): Result<FailureDisp> {
    match Position(st.nodes, nodeId)
    case None => Err(UnknownMember)
    case Some(index) =>
      if st.completed then Ok(FailureDisp(false, false))
      else if st.nextIndex < 0 || st.nextIndex >= |st.nodes| then Err(InvalidState)
      else if st.failed then
        if index > st.nextIndex then Err(ReceivedAfterFailure) else Ok(FailureDisp(index == st.nextIndex, false))
      else if index < st.nextIndex then Ok(FailureDisp(false, false))
      else if index > st.nextIndex then Err(ReceivedBefore)
      else Ok(FailureDisp(false, true))
  }

  /** What a sound chain has already decided about the node at one index. */
  datatype Standing = Committed | Current | FailedHere | Future

  function StandingOf(st: ChainState, index: nat): Standing {
    if index < st.nextIndex then Committed
    else if index > st.nextIndex then Future
    else if st.failed then FailedHere
    else Current
  }

  /**
   The three dispositions agree on every known node: committed nodes own success, the current node of a live chain is
   claimable both ways, the node a chain failed at owns failure, and every later node is refused by all three.
   */
  lemma DispositionsPartition(st: ChainState, index: nat)
    requires Sound(st) && index < |st.nodes|
    ensures var id, standing := st.nodes[index].nodeId, StandingOf(st, index);
            && (SuccessDisposition(st, id) == Ok(true) <==> standing == Committed)
            && (SuccessDisposition(st, id) == Ok(false) <==> standing in {Current, FailedHere})
            && (AdvanceDisposition(st, id) == Ok(AdvanceDisp(None, false, true)) <==> standing == Current)
            && (FailureDisposition(st, id) == Ok(FailureDisp(false, true)) <==> standing == Current)
            && (FailureDisposition(st, id) == Ok(FailureDisp(true, false)) <==> standing == FailedHere)
            && (FailureDisposition(st, id) == Ok(FailureDisp(false, false)) <==> standing == Committed)
            && (SuccessDisposition(st, id).Err? <==> standing == Future)
            && (AdvanceDisposition(st, id).Err? <==> standing == Future)
            && (FailureDisposition(st, id).Err? <==> standing == Future)
            && (standing == Committed && Live(st) ==>
                  AdvanceDisposition(st, id) == Ok(AdvanceDisp(Some(st.nodes[st.nextIndex]), false, false)))
  {
  }

  // ---------- Atomic transitions ----------

  function MakeReceipt(
      kind: WorkflowKind, workflowId: string, dispatchId: string, createdAt: int, memberId: string,
      outcome: MemberOutcome, claim: Claim, completed: bool, cancelled: bool): Option<Receipt>
  {
    if !claim.Valid() then None
    else Some(Receipt(RECEIPT_VERSION, EVENT_SCHEMA_VERSION, kind, workflowId, dispatchId, createdAt, memberId,
                      outcome, claim, completed, cancelled))
  }

  datatype AdvanceResult = AdvanceResult(
    state: ChainState, next: Option<ChainNode>, done: bool, successOwned: bool, claimedNow: bool,
    receipt: Option<Receipt>)

  datatype FailResult = FailResult(state: ChainState, owned: bool, claimedNow: bool, receipt: Option<Receipt>)

  /** The new chain, the receipt written by the transition (if any), and what the caller is told. */
  datatype Transition<R> = Transition(state: ChainState, written: Option<Receipt>, result: Result<R>)

  function Advanced(st: ChainState, now: int): ChainState {
    st.(nextIndex := st.nextIndex + 1, completed := st.completed || st.nextIndex + 1 >= |st.nodes|, updatedAt := now)
  }

  /** First-writer advancement of one node; `existing` is the node's stored receipt. */
  function AdvanceChain(st: ChainState, existing: Option<Receipt>, nodeId: string, claim: Claim, now: int)
    : Transition<AdvanceResult>
  {
    var success := SuccessDisposition(st, nodeId);
    if success.Err? then Transition(st, None, Err(success.error))
    else
      var disp := AdvanceDisposition(st, nodeId);
      if disp.Err? then Transition(st, None, Err(disp.error))
      else if !disp.value.claimable then
        if DispatchConflict(st.dispatchId, claim.dispatchId)
        then Transition(st, None, Ok(AdvanceResult(st, None, false, false, false, None)))
        else Transition(st, None, Ok(AdvanceResult(st, disp.value.next, disp.value.done, success.value, false,
                                                   existing)))
      else if DispatchConflict(st.dispatchId, claim.dispatchId) then Transition(st, None, Err(DispatchMismatch))
      else
        var after := Advanced(st, now);
        var done := after.nextIndex >= |after.nodes|;
        var receipt := MakeReceipt(ChainKind, st.chainId, st.dispatchId, st.createdAt, nodeId, MemberSucceeded, claim,
                                   done, false);
        var next := if done then None else Some(after.nodes[after.nextIndex]);
        Transition(after, receipt, Ok(AdvanceResult(after, next, done, true, true, receipt)))
  }

  function FailedWith(st: ChainState, cause: Option<string>, now: int): ChainState {
    st.(failed := true, failure := if cause.Some? then cause.value else st.failure, updatedAt := now)
  }

  /** First-writer failure of one node. */
  function FailChainNode(
      st: ChainState, existing: Option<Receipt>, nodeId: string, cause: Option<string>, claim: Claim, now: int)
    : Transition<FailResult>
  {
    var disp := FailureDisposition(st, nodeId);
    if disp.Err? then Transition(st, None, Err(disp.error))
    else if !disp.value.claimable then
      if DispatchConflict(st.dispatchId, claim.dispatchId)
      then Transition(st, None, Ok(FailResult(st, false, false, None)))
      else Transition(st, None, Ok(FailResult(st, disp.value.owned, false, existing)))
    else if DispatchConflict(st.dispatchId, claim.dispatchId) then Transition(st, None, Err(DispatchMismatch))
    else
      var after := FailedWith(st, cause, now);
      var receipt := MakeReceipt(ChainKind, st.chainId, st.dispatchId, st.createdAt, nodeId, MemberFailed, claim,
                                 false, false);
      Transition(after, receipt, Ok(FailResult(after, true, true, receipt)))
  }

  /** The unconditional failure operation leaves a terminal chain alone. */
  function FailChain(st: ChainState, cause: Option<string>, now: int): ChainState {
    if Live(st) then FailedWith(st, cause, now) else st
  }

  function NewChain(record: ChainRecord, now: int): ChainState {
    ChainState(record.chainId, record.dispatchId, record.queue, record.nodes, 0, false, false, "", record.createdAt,
      now)
  }

  // ---------- Every order and duplication of calls ----------

  datatype Call =
    | Advance(nodeId: string, claim: Claim, now: int)
    | Fail(nodeId: string, cause: Option<string>, claim: Claim, now: int)
    | FailAll(cause: Option<string>, now: int)

  /** A chain with the nodes whose call returned a fresh success claim and a fresh failure claim, in order. */
  datatype Audit = Audit(state: ChainState, successes: seq<string>, failures: seq<string>)

  function Perform(audit: Audit, call: Call): Audit {
    match call
    case Advance(nodeId, claim, now) =>
      var t := AdvanceChain(audit.state, None, nodeId, claim, now);
      audit.(state := t.state,
             successes := if t.result.Ok? && t.result.value.claimedNow
                          then audit.successes + [nodeId] else audit.successes)
    case Fail(nodeId, cause, claim, now) =>
      var t := FailChainNode(audit.state, None, nodeId, cause, claim, now);
      audit.(state := t.state,
             failures := if t.result.Ok? && t.result.value.claimedNow
                         then audit.failures + [nodeId] else audit.failures)
    case FailAll(cause, now) =>
      audit.(state := FailChain(audit.state, cause, now))
  }

  function PerformAll(audit: Audit, calls: seq<Call>): Audit
    decreases |calls|
  {
    if calls == [] then audit else PerformAll(Perform(audit, calls[0]), calls[1..])
  }

  function NodeIds(nodes: seq<ChainNode>): (ids: seq<string>)
    ensures |ids| == |nodes| && forall i :: 0 <= i < |ids| ==> ids[i] == nodes[i].nodeId
  {
    seq(|nodes|, i requires 0 <= i < |nodes| => nodes[i].nodeId)
  }

  /** The claims handed out so far are exactly the committed prefix, and at most the node the chain failed at. */
  predicate AuditOk(audit: Audit) {
    && Sound(audit.state)
    && audit.successes == NodeIds(audit.state.nodes[..audit.state.nextIndex])
    && |audit.failures| <= 1
    && (audit.failures != [] ==>
          audit.state.failed && audit.failures == [audit.state.nodes[audit.state.nextIndex].nodeId])
  }

  lemma PerformKeepsAudit(audit: Audit, call: Call)
    requires AuditOk(audit)
    ensures AuditOk(Perform(audit, call)) && Perform(audit, call).state.nodes == audit.state.nodes
  {
    var st, after := audit.state, Perform(audit, call).state;
    if call.Advance? && after.nextIndex != st.nextIndex {
      assert st.nodes[..after.nextIndex] == st.nodes[..st.nextIndex] + [st.nodes[st.nextIndex]];
      assert Perform(audit, call).successes == NodeIds(st.nodes[..after.nextIndex]);
    }
  }

  lemma {:induction false} PerformAllKeepsAudit(audit: Audit, calls: seq<Call>)
    requires AuditOk(audit)
    ensures AuditOk(PerformAll(audit, calls))
    ensures PerformAll(audit, calls).state.nodes == audit.state.nodes
    decreases |calls|
  {
    if calls != [] {
      PerformKeepsAudit(audit, calls[0]);
      PerformAllKeepsAudit(Perform(audit, calls[0]), calls[1..]);
    }
  }

  /**
   Whatever the order and duplication of advance and failure calls on a created chain, the nodes that won a success
   claim are the committed prefix of the chain in order and each once, at most one failure claim exists and it is the
   node the chain stopped at, and completion and failure never both hold.
   */
  lemma ClaimsFollowChainOrder(record: ChainRecord, created: int, calls: seq<Call>)
    requires record.chainId != "" && NodesOk(record.nodes)
    ensures var end := PerformAll(Audit(NewChain(record, created), [], []), calls);
            && ValidChainState(end.state) && end.state.nodes == record.nodes
            && !(end.state.completed && end.state.failed)
            && end.successes == NodeIds(record.nodes[..end.state.nextIndex])
            && (end.failures == [] ||
                (end.state.failed && end.failures == [record.nodes[end.state.nextIndex].nodeId]))
  {
    PerformAllKeepsAudit(Audit(NewChain(record, created), [], []), calls);
  }

  // ---------- Monotone progress ----------

  /** Later states of one chain incarnation. */
  predicate Extends(a: ChainState, b: ChainState) {
    && b.chainId == a.chainId && b.dispatchId == a.dispatchId && b.nodes == a.nodes && b.createdAt == a.createdAt
    && a.nextIndex <= b.nextIndex
    && (a.completed ==> b.completed)
    && (a.failed ==> b.failed && b.nextIndex == a.nextIndex && b.failure == a.failure)
  }

  /** What a fresh success claim does: it commits exactly the current node, and nothing else changes a chain. */
  lemma AdvanceEffect(st: ChainState, existing: Option<Receipt>, nodeId: string, claim: Claim, now: int)
    requires Sound(st)
    ensures var t := AdvanceChain(st, existing, nodeId, claim, now);
            && Sound(t.state) && Extends(st, t.state)
            && (if t.result.Ok? && t.result.value.claimedNow
                then && Live(st) && Position(st.nodes, nodeId) == Some(st.nextIndex)
                     && t.state.nextIndex == st.nextIndex + 1 && !t.state.failed
                     && t.state.completed == (st.nextIndex + 1 == |st.nodes|)
                     && t.written.Some? == claim.Valid()
                else t.state == st && t.written == None)
  {
  }

  lemma FailEffect(
      st: ChainState, existing: Option<Receipt>, nodeId: string, cause: Option<string>, claim: Claim, now: int)
    requires Sound(st)
    ensures var t := FailChainNode(st, existing, nodeId, cause, claim, now);
            && Sound(t.state) && Extends(st, t.state)
            && (if t.result.Ok? && t.result.value.claimedNow
                then && Live(st) && Position(st.nodes, nodeId) == Some(st.nextIndex)
                     && t.state.nextIndex == st.nextIndex && t.state.failed
                     && t.written.Some? == claim.Valid()
                else t.state == st && t.written == None)
  {
  }
}
