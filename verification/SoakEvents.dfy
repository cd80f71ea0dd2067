/**
 The evidence journal of the release soak: events, their identities, and the sums both the driver
 (owner-soak-driver/zkdeal_owner_soak.py) and the verifier (scripts/soak.py) take over them.
 */
module SoakEvents {
  import opened Bytes

  datatype Fault =
    | HeadlessRestart | ProverRestart | CoordinatorPromotion | IndexerRollback
    | RpcSplit | ObjectStoreRestart | DatabaseRestart | DockerHostRestart

  /** The label of the work an event belongs to. */
  datatype Step =
    | Pulse(index: nat)
    | Aggregate(index: nat)
    | Member(index: nat, member: nat)
    | Stale(index: nat)
    | Sponsorship | Withdrawal | Reconciliation

  /** The text ids of the code, kind by kind; texts of different kinds have different prefixes. */
  datatype EventId =
    | RoomCreateId(room: string)
    | SubmitAdmissionId(room: string, admission: string)
    | LeaseId(step: Step)
    | SubmitId(step: Step)
    | LivePrepareId(step: Step)
    | ProveId(step: Step)
    | VerifyId(step: Step)
    | BroadcastId(operation: string)
    | FinalizeId(step: Step)
    | ChargeId(charge: string)
    | BlobId(step: Step, member: nat)
    | SettleId(step: Step)
    | SponsorId | WithdrawId | ReconcileId | ReorgId
    | FaultId(fault: Fault)
    | RecoveredId(fault: Fault)

  datatype Selectors = Selectors(reserve: string, renew: string, checkpoint: string, dispose: string)

  datatype Body =
    | RoomCreate(roomId: string)
    | Submit(roomId: string, job: Option<string>, tx: Option<string>, cursor: nat)
    | Lease(roomId: string)
    | LivePrepare(preparedFrom: string, batchInput: string, fixture: bool, jobId: string)
    | Prove(outputId: string, sealed: string, realCuda: bool, proofMode: string)
    | Verify(realReceipt: bool)
    | Broadcast(nonceId: string, txHash: string, publisher: string, operationId: string)
    | Finalize(outputId: string, sealed: string)
    | Charge(chargeId: string, usageUnits: nat, chargeWei: nat, step: Step)
    | BlobArchive(roomId: string, jobId: string)
    | Settle(members: int, transactionBlobs: int, applied: int, failed: int,
             successfulCharges: int, failedCharges: int, publisher: string, ownerOperationId: string,
             selector: string, transactionType: int, finalizedCanonical: bool, castBroadcast: bool)
    | Sponsor(payer: string, beneficiary: string, refundRecipient: string, doubleBilled: bool,
              publisher: string, senderAuthoritySplit: bool, operations: Selectors, selectors: Selectors,
              finalizedCanonical: bool)
    | Withdraw(realProof: bool, claimed: bool, replayRejected: bool, publisher: string,
               ownerOperationId: string, selector: string, finalizedCanonical: bool)
    | Reconcile(usageUnits: nat, chargesWei: nat)
    | Reorg(preFinalityOrphaned: bool, canonicalRecovery: bool, duplicateNonce: bool, duplicateCharge: bool)
    | FaultBegan(fault: Fault, scheduledAtSecond: nat)
    | FaultRecovered(fault: Fault)
    | Closed(manifestSha: string, priorEventsSha: string, durationSeconds: int,
             sealedOutputsUnchanged: bool, resumeVerified: bool,
             unresolvedSafetyEvents: int, unresolvedClaims: int, duplicateNonces: int, duplicateCharges: int,
             fairnessBudgetMet: bool, deadlineBudgetMet: bool)

  /** `generation` records which worker generation wrote the line; it is history, not part of the line. */
  datatype Event = Event(seqNo: nat, id: Option<EventId>, body: Body, generation: nat)

  type EventLog = seq<Event>

  const OWNER := "owner-durable-operation"
  const GROTH16 := "groth16"
  const LIVE_STATE := "live-room-engine-state"
  const BATCH_INPUT := "BatchInputV5"
  const AGGREGATE_SELECTOR := "0x5e8b37ac"
  const WITHDRAWAL_SELECTOR := "0xb051a9f8"
  const SPONSOR_SELECTORS := Selectors("0x827ac259", "0xf180fe5d", "0xe19bc67e", "0xed97f11a")

  datatype Manifest = Manifest(
    durationSeconds: nat, faults: map<Fault, nat>, expectedUsage: nat, expectedWei: nat,
    maxFairnessWaitMs: nat, maxDeadlineMisses: nat)

  /** What both programs check of a manifest before anything else. */
  ghost predicate ManifestOk(m: Manifest)
  {
    m.durationSeconds >= 43200 && forall f: Fault :: f in m.faults && m.faults[f] < m.durationSeconds
  }

  // ---- journals ----

  predicate HasId(j: EventLog, id: EventId)
  {
    exists i :: 0 <= i < |j| && j[i].id == Some(id)
  }

  predicate IsClosed(j: EventLog)
  {
    exists i :: 0 <= i < |j| && j[i].body.Closed?
  }

  lemma ClosedOneMore(j: EventLog, e: Event)
    ensures IsClosed(j + [e]) <==> IsClosed(j) || e.body.Closed?
  {
    var j' := j + [e];
    if IsClosed(j) {
      var i :| 0 <= i < |j| && j[i].body.Closed?;
      assert j'[i].body.Closed?;
    }
    if e.body.Closed? { assert j'[|j|].body.Closed?; }
  }

  /** Exactly-once emission: a known id changes nothing. */
  function EmitOnce(j: EventLog, id: EventId, body: Body, generation: nat): EventLog
  {
    if HasId(j, id) then j else j + [Event(|j| + 1, Some(id), body, generation)]
  }

  datatype Line = Line(seqNo: nat, id: Option<EventId>, body: Body)

  /** What the file holds. */
  function Lines(j: EventLog): seq<Line>
  {
    seq(|j|, i requires 0 <= i < |j| => Line(j[i].seqNo, j[i].id, j[i].body))
  }

  /** The hash of the canonical bytes of a run of lines, and of the manifest file. */
  datatype Hashes = Hashes(events: seq<Line> -> string, manifest: string)

  function Usage(j: EventLog): nat
  {
    if j == [] then 0 else
      Usage(j[..|j| - 1]) + (var b := j[|j| - 1].body; if b.Charge? then b.usageUnits else 0)
  }

  function Wei(j: EventLog): nat
  {
    if j == [] then 0 else
      Wei(j[..|j| - 1]) + (var b := j[|j| - 1].body; if b.Charge? then b.chargeWei else 0)
  }

  /** Charges journaled under one step. */
  function StepCharges(j: EventLog, step: Step): nat
  {
    if j == [] then 0 else
      StepCharges(j[..|j| - 1], step) + (var b := j[|j| - 1].body; if b.Charge? && b.step == step then 1 else 0)
  }

  predicate DistinctNonces(j: EventLog)
  {
    forall i, k :: 0 <= i < k < |j| && j[i].body.Broadcast? && j[k].body.Broadcast? ==>
      j[i].body.nonceId != j[k].body.nonceId
  }

  predicate DistinctCharges(j: EventLog)
  {
    forall i, k :: 0 <= i < k < |j| && j[i].body.Charge? && j[k].body.Charge? ==>
      j[i].body.chargeId != j[k].body.chargeId
  }
}
