/** Delivery envelopes, deterministic fact identities, and the checks a recovered delivery makes against a receipt. */
module Recovery {
  import opened WorkflowTypes
  import opened Identity

  /** One queued workflow delivery; exactly one of chainId and batchId is set. */
  datatype Envelope = Envelope(
    dispatchId: string, jobId: string, chainId: string, batchId: string, nodeId: string, job: StoredJob)

  /** What the settlement owner tells a handler about the current and the earlier generation. */
  datatype Provenance = Provenance(generation: string, recoveredGeneration: string, recovered: bool)

  /** Facts of malformed deliveries get a random identifier. */
  datatype FactId = Stable(parts: string) | Random

  datatype Fact = Fact(kind: FactKind, id: FactId)

  function JobSucceededFact(env: Envelope, attempt: int): Fact {
    Fact(JobSucceeded,
         if env.dispatchId == "" || env.jobId == "" then Random
         else Stable(StableFactId(JobSucceeded, [env.dispatchId, env.jobId, env.chainId, env.batchId, env.job.jobType,
                                                 EventKey(env.job), env.job.options.queue, Decimal(attempt)])))
  }

  function ChainFact(kind: FactKind, env: Envelope): Fact {
    Fact(kind, Stable(StableFactId(kind, [env.dispatchId, env.chainId, env.nodeId, env.jobId, env.job.jobType,
                                          EventKey(env.job), env.job.options.queue])))
  }

  function BatchFact(kind: FactKind, env: Envelope): Fact {
    Fact(kind, Stable(StableFactId(kind, [env.dispatchId, env.batchId, env.jobId, env.job.jobType,
                                          EventKey(env.job), env.job.options.queue])))
  }

  function ClaimOf(env: Envelope, attempt: int, generation: string): Claim {
    Claim(generation, attempt, env.dispatchId, env.jobId, Fingerprint(env.job))
  }

  /** Durable logical identity of a receipt, without ownership of reconstructed facts. */
  predicate ReceiptMatches(env: Envelope, receipt: Receipt, requireOwnerJobId: bool) {
    && receipt.Supported()
    && receipt.owner.Valid()
    && env.dispatchId != "" && env.jobId != ""
    && receipt.owner.dispatchId == env.dispatchId
    && receipt.owner.jobFingerprint == Fingerprint(env.job)
    && (requireOwnerJobId ==> receipt.owner.jobId == env.jobId)
  }

  /** The recovered generation, attempt and job are all the receipt's immutable fact owner. */
  predicate OwnsRecoveredFacts(env: Envelope, attempt: int, receipt: Receipt, provenance: Provenance) {
    && provenance.recoveredGeneration != ""
    && receipt.owner.deliveryId == provenance.recoveredGeneration
    && receipt.owner.attempt == attempt
    && receipt.owner.jobId == env.jobId
  }
}
