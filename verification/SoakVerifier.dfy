/** The independent verifier of scripts/soak.py: load_journal and verify_closure. */
module SoakVerifier {
  import opened Bytes
  import opened SoakEvents
  import opened Text

  datatype Kind =
    | RoomCreateKind | SubmitKind | LeaseKind | LivePrepareKind | ProveKind | VerifyKind | BlobKind | SettleKind
    | SponsorKind | ReorgKind | FinalizeKind | WithdrawKind | ReconcileKind | OtherKind

  function KindOf(b: Body): Kind
  {
    match b
    case RoomCreate(_) => RoomCreateKind
    case Submit(_, _, _, _) => SubmitKind
    case Lease(_) => LeaseKind
    case LivePrepare(_, _, _, _) => LivePrepareKind
    case Prove(_, _, _, _) => ProveKind
    case Verify(_) => VerifyKind
    case BlobArchive(_, _) => BlobKind
    case Settle(_, _, _, _, _, _, _, _, _, _, _, _) => SettleKind
    case Sponsor(_, _, _, _, _, _, _, _, _) => SponsorKind
    case Reorg(_, _, _, _) => ReorgKind
    case Finalize(_, _) => FinalizeKind
    case Withdraw(_, _, _, _, _, _, _) => WithdrawKind
    case Reconcile(_, _) => ReconcileKind
    case _ => OtherKind
  }

  /** load_journal: there are events, and they are numbered from one. */
  ghost predicate Loads(events: EventLog)
  {
    events != [] && forall i :: 0 <= i < |events| ==> events[i].seqNo == i + 1
  }

  ghost predicate Present(body: EventLog, kind: Kind)
  {
    exists i :: 0 <= i < |body| && KindOf(body[i].body) == kind
  }

  /** one(kind): the last event of a kind, which must exist and pass a check. */
  ghost predicate LastOf(body: EventLog, kind: Kind, check: Body -> bool)
  {
    exists i :: 0 <= i < |body| && KindOf(body[i].body) == kind && check(body[i].body)
      && forall k :: i < k < |body| ==> KindOf(body[k].body) != kind
  }

  /** The last event of a kind that is present. */
  lemma {:induction false} LastIndex(j: EventLog, kind: Kind) returns (i: nat)
    requires Present(j, kind)
    ensures i < |j| && KindOf(j[i].body) == kind && forall k :: i < k < |j| ==> KindOf(j[k].body) != kind
    decreases |j|
  {
    if KindOf(j[|j| - 1].body) == kind {
      i := |j| - 1;
    } else {
      var front := j[..|j| - 1];
      var n :| 0 <= n < |j| && KindOf(j[n].body) == kind;
      assert front[n] == j[n];
      i := LastIndex(front, kind);
      assert forall k :: 0 <= k < |front| ==> front[k] == j[k];
    }
  }

  predicate PrepareOk(b: Body)
  {
    b.LivePrepare? && b.preparedFrom == LIVE_STATE && b.batchInput == BATCH_INPUT && !b.fixture
  }

  predicate ProveOk(b: Body)
  {
    b.Prove? && b.realCuda && b.proofMode == GROTH16
  }

  predicate VerifyOk(b: Body)
  {
    b.Verify? && b.realReceipt
  }

  predicate SettleOk(b: Body)
  {
    && b.Settle? && b.members == 8 && b.transactionBlobs == 6 && b.applied == 7 && b.failed == 1
    && b.successfulCharges == 7 && b.failedCharges == 0
    && b.publisher == OWNER && b.ownerOperationId != "" && b.selector == AGGREGATE_SELECTOR
    && b.transactionType == 3 && b.finalizedCanonical && !b.castBroadcast
  }

  predicate SponsorOk(b: Body)
  {
    && b.Sponsor? && b.payer != b.beneficiary && b.refundRecipient == b.payer && !b.doubleBilled
    && b.publisher == OWNER && b.senderAuthoritySplit
    && b.operations.reserve != "" && b.operations.renew != ""
    && b.operations.checkpoint != "" && b.operations.dispose != ""
    && b.selectors == SPONSOR_SELECTORS && b.finalizedCanonical
  }

  predicate ReorgOk(b: Body)
  {
    b.Reorg? && b.preFinalityOrphaned && b.canonicalRecovery && !b.duplicateNonce && !b.duplicateCharge
  }

  predicate WithdrawOk(b: Body)
  {
    && b.Withdraw? && b.realProof && b.claimed && b.replayRejected
    && b.publisher == OWNER && b.ownerOperationId != "" && b.selector == WITHDRAWAL_SELECTOR && b.finalizedCanonical
  }

  /** The last fault event of a kind names its scheduled second, and a recovery was recorded. */
  ghost predicate FaultProved(body: EventLog, fault: Fault, at: nat)
  {
    && (exists i :: 0 <= i < |body| && body[i].body == FaultBegan(fault, at)
          && forall k :: i < k < |body| && body[k].body.FaultBegan? ==> body[k].body.fault != fault)
    && exists i :: 0 <= i < |body| && body[i].body == FaultRecovered(fault)
  }

  /** Some event persists each durable field. */
  ghost predicate FieldsPersisted(body: EventLog)
  {
    && (exists i :: 0 <= i < |body| && RoomOf(body[i].body) != "")
    && (exists i :: 0 <= i < |body| && JobOf(body[i].body) != "")
    && (exists i :: 0 <= i < |body| && body[i].body.Broadcast? && body[i].body.nonceId != "")
    && (exists i :: 0 <= i < |body| && TxOf(body[i].body) != "")
    && (exists i :: 0 <= i < |body| && body[i].id.Some?)
    && (exists i :: 0 <= i < |body| && body[i].body.Submit?)
  }

  function RoomOf(b: Body): string
  {
    if b.RoomCreate? || b.Submit? || b.Lease? || b.BlobArchive? then b.roomId else ""
  }

  function JobOf(b: Body): string
  {
    if b.LivePrepare? || b.BlobArchive? then b.jobId
    else if b.Submit? && b.job.Some? then b.job.value
    else ""
  }

  function TxOf(b: Body): string
  {
    if b.Broadcast? then b.txHash else if b.Submit? && b.tx.Some? then b.tx.value else ""
  }

  /** The events that carry an output id and its digest. */
  predicate Seals(b: Body)
  {
    b.Prove? || b.Finalize?
  }

  /** Every output keeps one well-formed digest, and a finalized one is among them. */
  ghost predicate SealsStable(body: EventLog)
  {
    && (forall i :: 0 <= i < |body| && Seals(body[i].body) ==>
          Hex64(body[i].body.sealed))
    && (forall i, k :: 0 <= i < k < |body| && Seals(body[i].body) && Seals(body[k].body) ==>
          body[i].body.outputId == body[k].body.outputId ==> body[i].body.sealed == body[k].body.sealed)
    && exists i :: 0 <= i < |body| && body[i].body.Finalize?
  }

  ghost predicate BroadcastsOwned(body: EventLog)
  {
    forall i :: 0 <= i < |body| && body[i].body.Broadcast? ==>
      body[i].body.publisher == OWNER && body[i].body.operationId != ""
  }

  ghost predicate ClosureOk(m: Manifest, h: Hashes, body: EventLog, c: Body)
  {
    && c.Closed? && c.manifestSha == h.manifest && c.priorEventsSha == h.events(Lines(body))
    && c.sealedOutputsUnchanged && c.resumeVerified
    && c.unresolvedSafetyEvents == 0 && c.unresolvedClaims == 0
    && c.duplicateNonces == 0 && c.duplicateCharges == 0
    && c.fairnessBudgetMet && c.deadlineBudgetMet
    && c.durationSeconds >= m.durationSeconds
  }

  /** No lifecycle kind is missing. */
  ghost predicate AllKinds(body: EventLog)
  {
    forall kind :: kind != OtherKind ==> Present(body, kind)
  }

  /** The last event of each of these kinds passes its check. */
  ghost predicate LastsPass(body: EventLog)
  {
    && LastOf(body, LivePrepareKind, PrepareOk)
    && LastOf(body, ProveKind, ProveOk)
    && LastOf(body, VerifyKind, VerifyOk)
    && LastOf(body, SettleKind, SettleOk)
    && LastOf(body, SponsorKind, SponsorOk)
    && LastOf(body, ReorgKind, ReorgOk)
    && LastOf(body, WithdrawKind, WithdrawOk)
  }

  ghost predicate FaultsProved(m: Manifest, body: EventLog)
  {
    forall f :: f in m.faults ==> FaultProved(body, f, m.faults[f])
  }

  ghost predicate SomethingCharged(body: EventLog)
  {
    exists i :: 0 <= i < |body| && body[i].body.Charge?
  }

  /** The checks on the events before the closure. */
  ghost predicate BodyOk(m: Manifest, body: EventLog)
  {
    && AllKinds(body) && LastsPass(body) && FaultsProved(m, body)
    && FieldsPersisted(body) && BroadcastsOwned(body)
    && DistinctNonces(body) && SomethingCharged(body) && DistinctCharges(body)
    && Usage(body) == m.expectedUsage && Wei(body) == m.expectedWei
    && SealsStable(body)
  }

  /** verify_closure returns instead of raising. */
  ghost predicate Accepts(m: Manifest, h: Hashes, events: EventLog)
  {
    && Loads(events)
    && (var body := events[..|events| - 1];
        BodyOk(m, body) && ClosureOk(m, h, body, events[|events| - 1].body))
  }

  // ---- the loops of the verifier ----

  /** A line of the journal file as parsed. */
  datatype RawLine = Blank | NotAnObject | Object(event: Event)

  /** The events of a file: blank lines are skipped. */
  function EventsOf(lines: seq<RawLine>): EventLog
  {
    if lines == [] then []
    else EventsOf(lines[..|lines| - 1]) + (if lines[|lines| - 1].Object? then [lines[|lines| - 1].event] else [])
  }

  /** load_journal succeeds exactly on files of objects that number their events from one. */
  method LoadJournal(lines: seq<RawLine>) returns (r: Option<EventLog>)
    ensures r.Some? <==> NotAnObject !in lines && Loads(EventsOf(lines))
    ensures r.Some? ==> r.value == EventsOf(lines)
  {
    var events: EventLog := [];
    var i := 0;
    while i < |lines|
      invariant 0 <= i <= |lines| && events == EventsOf(lines[..i])
      invariant NotAnObject !in lines[..i]
    {
      assert lines[..i + 1][..i] == lines[..i];
      if lines[i].NotAnObject? { return None; }
      if lines[i].Object? { events := events + [lines[i].event]; }
      i := i + 1;
    }
    assert lines[..i] == lines;
    if events == [] { return None; }
    i := 0;
    while i < |events|
      invariant 0 <= i <= |events|
      invariant forall k :: 0 <= k < i ==> events[k].seqNo == k + 1
    {
      if events[i].seqNo != i + 1 { return None; }
      i := i + 1;
    }
    r := Some(events);
  }

  /** The seals dictionary: the first digest of each output, which later events must repeat. */
  method SealsUnchanged(body: EventLog) returns (ok: bool)
    ensures ok <==> SealsStable(body)
  {
    var seals: map<string, string> := map[];
    var finalized := false;
    var i := 0;
    while i < |body|
      invariant 0 <= i <= |body|
      invariant forall k :: 0 <= k < i && Seals(body[k].body) ==>
        && Hex64(body[k].body.sealed)
        && body[k].body.outputId in seals && seals[body[k].body.outputId] == body[k].body.sealed
      invariant forall o :: o in seals ==>
        exists k :: 0 <= k < i && Seals(body[k].body) && body[k].body.outputId == o && body[k].body.sealed == seals[o]
      invariant finalized <==> exists k :: 0 <= k < i && body[k].body.Finalize?
    {
      var b := body[i].body;
      if Seals(b) {
        if !Hex64(b.sealed) { return false; }
        if b.outputId !in seals {
          seals := seals[b.outputId := b.sealed];
        } else if seals[b.outputId] != b.sealed {
          return false;
        }
      }
      if b.Finalize? { finalized := true; }
      i := i + 1;
    }
    ok := finalized;
  }
}
