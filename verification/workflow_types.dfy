/**
 Values of the workflow engine. A Go string or byte slice is a Dafny string whose characters stand for its bytes.
 A SHA digest is represented by the bytes it digests, so equality of digests is equality of their pre-images.
 */
module WorkflowTypes {

  datatype JobOptions = JobOptions(queue: string, delay: int, timeout: int, retry: int, backoff: int, uniqueFor: int)

  datatype StoredJob = StoredJob(jobType: string, payload: string, options: JobOptions)

  datatype ChainNode = ChainNode(nodeId: string, job: StoredJob)

  datatype ChainRecord = ChainRecord(
    chainId: string, dispatchId: string, queue: string, nodes: seq<ChainNode>, createdAt: int)

  datatype ChainState = ChainState(
    chainId: string,
    dispatchId: string,
    queue: string,
    nodes: seq<ChainNode>,
    nextIndex: int,
    completed: bool,
    failed: bool,
    failure: string,
    createdAt: int,
    updatedAt: int)

  datatype BatchJob = BatchJob(jobId: string, job: StoredJob)

  datatype BatchRecord = BatchRecord(
    batchId: string,
    dispatchId: string,
    name: string,
    queue: string,
    allowFailed: bool,
    jobs: seq<BatchJob>,
    createdAt: int)

  datatype BatchState = BatchState(
    batchId: string,
    dispatchId: string,
    name: string,
    queue: string,
    allowFailed: bool,
    total: int,
    pending: int,
    processed: int,
    failed: int,
    cancelled: bool,
    completed: bool,
    createdAt: int,
    updatedAt: int)

  /** Succeeded and Failed are the durable outcomes; the string type of the source also admits other values. */
  datatype MemberOutcome = MemberSucceeded | MemberFailed | MemberOther(name: string)

  datatype WorkflowKind = ChainKind | BatchKind

  /** The settlement generation that asks to own a transition. */
  datatype Claim = Claim(deliveryId: string, attempt: int, dispatchId: string, jobId: string, jobFingerprint: string) {
    predicate Valid() {
      deliveryId != "" && attempt >= 0 && dispatchId != "" && jobId != "" && jobFingerprint != ""
    }
  }

  const NO_CLAIM := Claim("", 0, "", "", "")

  const RECEIPT_VERSION := 1
  const EVENT_SCHEMA_VERSION := 1

  datatype Receipt = Receipt(
    version: int,
    eventSchemaVersion: int,
    kind: WorkflowKind,
    workflowId: string,
    workflowDispatchId: string,
    workflowCreatedAt: int,
    memberId: string,
    outcome: MemberOutcome,
    owner: Claim,
    aggregateCompleted: bool,
    aggregateCancelled: bool)
  {
    predicate Supported() {
      version == RECEIPT_VERSION && eventSchemaVersion == EVENT_SCHEMA_VERSION
    }
  }

  datatype ReceiptKey = ReceiptKey(kind: WorkflowKind, workflowId: string, memberId: string)

  /** A claim conflicts with a workflow when both name a dispatch and the names differ. */
  predicate DispatchConflict(stored: string, claimed: string) {
    stored != "" && claimed != "" && stored != claimed
  }
}
