/**
 What the verifier of scripts/soak.py establishes about a file it accepts, said over the lines themselves:
 the closure vouches for every line before it, and none of the defects it looks for is there.
 */
module SoakTamper {
  import opened Bytes
  import opened SoakEvents
  import opened SoakVerifier
  import opened SoakDriver
  import opened SoakClosure
  import opened Text

  // ---- the closure vouches for everything before it ----

  /** What the verifier reads of an event. */
  function LineOf(e: Event): Line
  {
    Line(e.seqNo, e.id, e.body)
  }

  lemma LinesAt(j: EventLog)
    ensures |Lines(j)| == |j| && forall i :: 0 <= i < |j| ==> Lines(j)[i] == LineOf(j[i])
  {
  }

  ghost predicate EndsAlike(a: EventLog, b: EventLog)
  {
    a != [] && b != [] && LineOf(a[|a| - 1]) == LineOf(b[|b| - 1])
  }

  /** The same lines throughout, or two different runs of lines with one hash. */
  ghost predicate SameOrCollision(h: Hashes, a: EventLog, b: EventLog)
    requires a != [] && b != []
  {
    var front, front' := Lines(a[..|a| - 1]), Lines(b[..|b| - 1]);
    Lines(a) == Lines(b) || (front != front' && h.events(front) == h.events(front'))
  }

  /**
   Two accepted files that end in the same line are the same file, or the lines before their ends are a
   collision of the hash; if they were accepted for two manifests, the manifests' hashes agree too.
   */
  lemma TamperEvident(m: Manifest, m': Manifest, h: Hashes, h': Hashes, a: EventLog, b: EventLog)
    requires h.events == h'.events && Accepts(m, h, a) && Accepts(m', h', b) && EndsAlike(a, b)
    ensures h.manifest == h'.manifest && SameOrCollision(h, a, b)
  {
    Vouches(m, h, a);
    Vouches(m', h', b);
    FrontAndLast(a);
    FrontAndLast(b);
  }

  /** The last line of an accepted file names the manifest and all the lines before it. */
  lemma Vouches(m: Manifest, h: Hashes, events: EventLog)
    requires Accepts(m, h, events)
    ensures events != []
    ensures var c := events[|events| - 1].body;
      c.Closed? && c.manifestSha == h.manifest && c.priorEventsSha == h.events(Lines(events[..|events| - 1]))
  {
  }

  lemma FrontAndLast(j: EventLog)
    requires j != []
    ensures Lines(j) == Lines(j[..|j| - 1]) + [LineOf(j[|j| - 1])]
  {
    LinesAt(j[..|j| - 1]);
    LinesAt(j);
  }

  /** With a hash that has no collisions, no line before the closure can be edited, added, dropped or moved. */
  lemma ClosureFixesFile(m: Manifest, h: Hashes, a: EventLog, b: EventLog)
    requires forall x, y :: h.events(x) == h.events(y) ==> x == y
    requires Accepts(m, h, a) && EndsAlike(a, b) && Lines(a) != Lines(b)
    ensures !Accepts(m, h, b)
  {
    if Accepts(m, h, b) { TamperEvident(m, m, h, h, a, b); }
  }

  /** So the closure that a soak writes fits no file but the soak's own. */
  lemma OnlyTheRunVerifies(w: World, lives: seq<Life>, a: EventLog, b: EventLog)
    requires ManifestOk(w.m) && LedgerOk(w.ledger)
    requires a == RunLives(w, FRESH, lives).journal && IsClosed(a) && EndsAlike(a, b)
    requires Accepts(w.m, w.h, b)
    ensures SameOrCollision(w.h, a, b)
  {
    DriverVerifierAgreement(w, lives);
    TamperEvident(w.m, w.m, w.h, w.h, a, b);
  }

  // ---- the last line ----

  lemma ClosureIs(m: Manifest, h: Hashes, body: EventLog, c: Body)
    ensures ClosureOk(m, h, body, c) <==>
      exists duration: int ::
        && duration >= m.durationSeconds
        && c == Closed(h.manifest, h.events(Lines(body)), duration, true, true, 0, 0, 0, 0, true, true)
  {
    if ClosureOk(m, h, body, c) {
      assert c == Closed(h.manifest, h.events(Lines(body)), c.durationSeconds, true, true, 0, 0, 0, 0, true, true);
    }
  }

  // ---- the checks on single events ----

  /** Which fields of an event the checks leave open, and what they fix the others to. */
  lemma ChecksAre(b: Body)
    ensures PrepareOk(b) <==> exists job :: b == LivePrepare("live-room-engine-state", "BatchInputV5", false, job)
    ensures ProveOk(b) <==> exists o, s :: b == Prove(o, s, true, "groth16")
    ensures VerifyOk(b) <==> b == Verify(true)
    ensures ReorgOk(b) <==> b == Reorg(true, true, false, false)
    ensures SettleOk(b) <==> exists operation ::
      && operation != ""
      && b == Settle(8, 6, 7, 1, 7, 0, "owner-durable-operation", operation, "0x5e8b37ac", 3, true, false)
    ensures WithdrawOk(b) <==> exists operation ::
      && operation != ""
      && b == Withdraw(true, true, true, "owner-durable-operation", operation, "0xb051a9f8", true)
  {
    if PrepareOk(b) { assert b == LivePrepare("live-room-engine-state", "BatchInputV5", false, b.jobId); }
    if ProveOk(b) { assert b == Prove(b.outputId, b.sealed, true, "groth16"); }
    if SettleOk(b) {
      assert b == Settle(8, 6, 7, 1, 7, 0, "owner-durable-operation", b.ownerOperationId, "0x5e8b37ac", 3, true, false);
    }
    if WithdrawOk(b) {
      assert b == Withdraw(true, true, true, "owner-durable-operation", b.ownerOperationId, "0xb051a9f8", true);
    }
  }

  /** A sponsorship is paid for and refunded to someone else than its beneficiary, in four named operations. */
  lemma SponsorIs(b: Body)
    ensures SponsorOk(b) <==> exists payer, beneficiary, o: Selectors ::
      && payer != beneficiary
      && "" !in {o.reserve, o.renew, o.checkpoint, o.dispose}
      && b == Sponsor(payer, beneficiary, payer, false, "owner-durable-operation", true, o,
                      Selectors("0x827ac259", "0xf180fe5d", "0xe19bc67e", "0xed97f11a"), true)
  {
    if SponsorOk(b) {
      assert "" !in {b.operations.reserve, b.operations.renew, b.operations.checkpoint, b.operations.dispose};
      assert b == Sponsor(b.payer, b.beneficiary, b.payer, false, "owner-durable-operation", true, b.operations,
                          Selectors("0x827ac259", "0xf180fe5d", "0xe19bc67e", "0xed97f11a"), true);
    }
  }

  /** one(kind) passes exactly when there is such an event and the last one passes. */
  lemma LastOfIs(body: EventLog, kind: Kind, check: Body -> bool)
    ensures LastOf(body, kind, check) <==>
      && Present(body, kind)
      && forall i :: LastAt(body, kind, i) ==> check(body[i].body)
  {
    if Present(body, kind) {
      var i := LastIndex(body, kind);
      assert LastAt(body, kind, i);
    }
  }

  ghost predicate LastAt(body: EventLog, kind: Kind, i: int)
  {
    0 <= i < |body| && KindOf(body[i].body) == kind && forall k :: i < k < |body| ==> KindOf(body[k].body) != kind
  }

  // ---- the sums ----

  /** Units and wei of one event. */
  function Units(b: Body): nat
  {
    match b
    case Charge(_, units, _, _) => units
    case _ => 0
  }

  function Amount(b: Body): nat
  {
    match b
    case Charge(_, _, wei, _) => wei
    case _ => 0
  }

  /** The totals are sums over the lines in any bracketing: of nothing zero, of one line its own. */
  lemma {:induction false} TotalsAdd(a: EventLog, b: EventLog)
    ensures Usage(a + b) == Usage(a) + Usage(b) && Wei(a + b) == Wei(a) + Wei(b)
    ensures |a| == 1 ==> Usage(a) == Units(a[0].body) && Wei(a) == Amount(a[0].body)
    decreases |b|
  {
    if |a| == 1 { assert a[..0] == []; }
    if b == [] {
      assert a + b == a;
    } else {
      TotalsAdd(a, b[..|b| - 1]);
      assert (a + b)[..|a + b| - 1] == a + b[..|b| - 1];
    }
  }

  // ---- what an accepted file holds, and so cannot hold ----

  /** The checks, part by part. */
  lemma Checked(m: Manifest, h: Hashes, events: EventLog, body: EventLog)
    requires Accepts(m, h, events) && (events != [] ==> body == events[..|events| - 1])
    ensures Loads(events) && ClosureOk(m, h, body, events[|events| - 1].body)
    ensures AllKinds(body) && LastsPass(body) && FaultsProved(m, body)
    ensures FieldsPersisted(body) && BroadcastsOwned(body)
    ensures DistinctNonces(body) && SomethingCharged(body) && DistinctCharges(body)
    ensures Usage(body) == m.expectedUsage && Wei(body) == m.expectedWei
    ensures SealsStable(body)
  {
  }

  /** There are lines, numbered from one. */
  lemma AcceptedIsNumbered(m: Manifest, h: Hashes, events: EventLog)
    requires Accepts(m, h, events)
    ensures events != [] && forall i :: 0 <= i < |events| ==> events[i].seqNo == i + 1
  {
  }

  /** No two broadcasts share a nonce, no two charges an id; some charge is there, and the totals are the manifest's. */
  lemma AcceptedRepeatsNothing(m: Manifest, h: Hashes, events: EventLog, body: EventLog)
    requires Accepts(m, h, events) && events != [] && body == events[..|events| - 1]
    ensures forall i, k :: 0 <= i < k < |body| && body[i].body.Broadcast? && body[k].body.Broadcast? ==>
      body[i].body.nonceId != body[k].body.nonceId
    ensures forall i, k :: 0 <= i < k < |body| && body[i].body.Charge? && body[k].body.Charge? ==>
      body[i].body.chargeId != body[k].body.chargeId
    ensures exists i :: 0 <= i < |body| && body[i].body.Charge?
    ensures Usage(body) == m.expectedUsage && Wei(body) == m.expectedWei
  {
    Checked(m, h, events, body);
    Separate(body);
  }

  lemma Separate(body: EventLog)
    requires DistinctNonces(body) && DistinctCharges(body) && SomethingCharged(body)
    ensures forall i, k :: 0 <= i < k < |body| && body[i].body.Broadcast? && body[k].body.Broadcast? ==>
      body[i].body.nonceId != body[k].body.nonceId
    ensures forall i, k :: 0 <= i < k < |body| && body[i].body.Charge? && body[k].body.Charge? ==>
      body[i].body.chargeId != body[k].body.chargeId
    ensures exists i :: 0 <= i < |body| && body[i].body.Charge?
  {
  }

  /** Every broadcast is one of the owner's durable operations. */
  lemma AcceptedIsOwned(m: Manifest, h: Hashes, events: EventLog, body: EventLog)
    requires Accepts(m, h, events) && events != [] && body == events[..|events| - 1]
    ensures forall i :: 0 <= i < |body| && body[i].body.Broadcast? ==>
      body[i].body.publisher == "owner-durable-operation" && body[i].body.operationId != ""
  {
    Checked(m, h, events, body);
    Owned(body);
  }

  lemma Owned(body: EventLog)
    requires BroadcastsOwned(body)
    ensures forall i :: 0 <= i < |body| && body[i].body.Broadcast? ==>
      body[i].body.publisher == "owner-durable-operation" && body[i].body.operationId != ""
  {
  }

  /** Every output has one digest for the whole run, in hexadecimal, whichever line seals it; one is finalized. */
  lemma AcceptedSealsOnce(m: Manifest, h: Hashes, events: EventLog, body: EventLog)
    requires Accepts(m, h, events) && events != [] && body == events[..|events| - 1]
    ensures exists seals: map<string, string> :: AllKeep(seals, body)
    ensures exists i :: 0 <= i < |body| && body[i].body.Finalize?
  {
    Checked(m, h, events, body);
    var seals := SealsOf(body);
  }

  /** A line that seals an output seals it with its one digest. */
  ghost predicate Keeps(seals: map<string, string>, b: Body)
  {
    match b
    case Prove(output, sealed, _, _) => output in seals && seals[output] == sealed && Hex64(sealed)
    case Finalize(output, sealed) => output in seals && seals[output] == sealed && Hex64(sealed)
    case _ => true
  }

  ghost predicate AllKeep(seals: map<string, string>, body: EventLog)
  {
    forall i :: 0 <= i < |body| ==> Keeps(seals, body[i].body)
  }

  lemma {:induction false} SealsOf(body: EventLog) returns (seals: map<string, string>)
    requires forall i :: 0 <= i < |body| && Seals(body[i].body) ==> Hex64(body[i].body.sealed)
    requires forall i, k :: 0 <= i < k < |body| && Seals(body[i].body) && Seals(body[k].body) ==>
      body[i].body.outputId == body[k].body.outputId ==> body[i].body.sealed == body[k].body.sealed
    ensures AllKeep(seals, body)
    ensures forall o :: o in seals ==>
      exists i :: 0 <= i < |body| && Seals(body[i].body) && body[i].body.outputId == o
    decreases |body|
  {
    if body == [] {
      seals := map[];
    } else {
      var front, last := body[..|body| - 1], body[|body| - 1].body;
      assert forall i :: 0 <= i < |front| ==> front[i] == body[i];
      seals := SealsOf(front);
      if Seals(last) { seals := seals[last.outputId := last.sealed]; }
      forall i | 0 <= i < |body|
        ensures Keeps(seals, body[i].body)
      {
        if i < |front| { assert front[i] == body[i]; }
      }
    }
  }

  /** Every scheduled fault was announced, last for the second the manifest names, and recovered. */
  lemma AcceptedFaults(m: Manifest, h: Hashes, events: EventLog, body: EventLog, f: Fault)
    requires Accepts(m, h, events) && events != [] && body == events[..|events| - 1] && f in m.faults
    ensures exists i :: 0 <= i < |body| && body[i].body == FaultRecovered(f)
    ensures exists i :: LastAnnouncement(body, f, i)
    ensures forall i :: LastAnnouncement(body, f, i) ==> body[i].body == FaultBegan(f, m.faults[f])
  {
    Checked(m, h, events, body);
    assert FaultProved(body, f, m.faults[f]);
    FaultShown(body, f, m.faults[f]);
  }

  ghost predicate LastAnnouncement(body: EventLog, f: Fault, i: int)
  {
    && 0 <= i < |body| && body[i].body.FaultBegan? && body[i].body.fault == f
    && forall k :: i < k < |body| && body[k].body.FaultBegan? ==> body[k].body.fault != f
  }

  lemma FaultShown(body: EventLog, f: Fault, at: nat)
    requires FaultProved(body, f, at)
    ensures exists i :: 0 <= i < |body| && body[i].body == FaultRecovered(f)
    ensures exists i :: LastAnnouncement(body, f, i)
    ensures forall i :: LastAnnouncement(body, f, i) ==> body[i].body == FaultBegan(f, at)
  {
    var b :| 0 <= b < |body| && body[b].body == FaultBegan(f, at)
      && forall k :: b < k < |body| && body[k].body.FaultBegan? ==> body[k].body.fault != f;
    assert LastAnnouncement(body, f, b);
  }

  /** Every lifecycle kind is there, and the last event of each checked kind has the fields it must have. */
  lemma AcceptedKinds(m: Manifest, h: Hashes, events: EventLog, body: EventLog, kind: Kind)
    requires Accepts(m, h, events) && events != [] && body == events[..|events| - 1] && kind != OtherKind
    ensures exists i :: LastAt(body, kind, i)
    ensures forall i :: LastAt(body, kind, i) ==> Passes(kind, body[i].body)
  {
    Checked(m, h, events, body);
    assert Present(body, kind);
    var i := LastIndex(body, kind);
    assert LastAt(body, kind, i);
    LastsAre(body, kind);
  }

  /** An event of its kind, with the fields that the check of the kind fixes. */
  ghost predicate Passes(kind: Kind, b: Body)
  {
    match kind
    case RoomCreateKind => b.RoomCreate?
    case SubmitKind => b.Submit?
    case LeaseKind => b.Lease?
    case BlobKind => b.BlobArchive?
    case FinalizeKind => b.Finalize?
    case ReconcileKind => b.Reconcile?
    case LivePrepareKind => exists job :: b == LivePrepare("live-room-engine-state", "BatchInputV5", false, job)
    case ProveKind => exists output, sealed :: b == Prove(output, sealed, true, "groth16")
    case VerifyKind => b == Verify(true)
    case ReorgKind => b == Reorg(true, true, false, false)
    case SettleKind => exists operation ::
      && operation != ""
      && b == Settle(8, 6, 7, 1, 7, 0, "owner-durable-operation", operation, "0x5e8b37ac", 3, true, false)
    case WithdrawKind => exists operation ::
      && operation != ""
      && b == Withdraw(true, true, true, "owner-durable-operation", operation, "0xb051a9f8", true)
    case SponsorKind => exists payer, beneficiary, o: Selectors ::
      && payer != beneficiary
      && "" !in {o.reserve, o.renew, o.checkpoint, o.dispose}
      && b == Sponsor(payer, beneficiary, payer, false, "owner-durable-operation", true, o,
                      Selectors("0x827ac259", "0xf180fe5d", "0xe19bc67e", "0xed97f11a"), true)
    case OtherKind => true
  }

  lemma LastsAre(body: EventLog, kind: Kind)
    requires LastsPass(body)
    ensures forall i :: LastAt(body, kind, i) ==> Passes(kind, body[i].body)
  {
    forall i | LastAt(body, kind, i)
      ensures Passes(kind, body[i].body)
    {
      LastChecked(body, kind, i);
      if kind == SponsorKind { SponsorIs(body[i].body); } else { ChecksAre(body[i].body); }
    }
  }

  lemma LastChecked(body: EventLog, kind: Kind, i: int)
    requires LastsPass(body) && LastAt(body, kind, i)
    ensures var b := body[i].body;
      && (kind == LivePrepareKind ==> PrepareOk(b)) && (kind == ProveKind ==> ProveOk(b))
      && (kind == VerifyKind ==> VerifyOk(b)) && (kind == SettleKind ==> SettleOk(b))
      && (kind == SponsorKind ==> SponsorOk(b)) && (kind == ReorgKind ==> ReorgOk(b))
      && (kind == WithdrawKind ==> WithdrawOk(b))
  {
    LastOfIs(body, LivePrepareKind, PrepareOk);
    LastOfIs(body, ProveKind, ProveOk);
    LastOfIs(body, VerifyKind, VerifyOk);
    LastOfIs(body, SettleKind, SettleOk);
    LastOfIs(body, SponsorKind, SponsorOk);
    LastOfIs(body, ReorgKind, ReorgOk);
    LastOfIs(body, WithdrawKind, WithdrawOk);
  }

  /** The last line is a closure of this manifest over these lines, with every assertion true, and in time. */
  lemma AcceptedCloses(m: Manifest, h: Hashes, events: EventLog, body: EventLog)
    requires Accepts(m, h, events) && events != [] && body == events[..|events| - 1]
    ensures exists duration: int ::
      && duration >= m.durationSeconds
      && events[|events| - 1].body ==
           Closed(h.manifest, h.events(Lines(body)), duration, true, true, 0, 0, 0, 0, true, true)
  {
    Checked(m, h, events, body);
    ClosureIs(m, h, body, events[|events| - 1].body);
  }

  /** Each durable field is persisted by some line. */
  lemma AcceptedPersists(m: Manifest, h: Hashes, events: EventLog, body: EventLog)
    requires Accepts(m, h, events) && events != [] && body == events[..|events| - 1]
    ensures exists i :: 0 <= i < |body| && RoomOf(body[i].body) != ""
    ensures exists i :: 0 <= i < |body| && JobOf(body[i].body) != ""
    ensures exists i :: 0 <= i < |body| && TxOf(body[i].body) != ""
    ensures exists i :: 0 <= i < |body| && body[i].body.Broadcast? && body[i].body.nonceId != ""
    ensures exists i :: 0 <= i < |body| && body[i].id.Some?
    ensures exists i :: 0 <= i < |body| && body[i].body.Submit?
  {
    Checked(m, h, events, body);
    Persists(body);
  }

  lemma Persists(body: EventLog)
    requires FieldsPersisted(body)
    ensures exists i :: 0 <= i < |body| && RoomOf(body[i].body) != ""
    ensures exists i :: 0 <= i < |body| && JobOf(body[i].body) != ""
    ensures exists i :: 0 <= i < |body| && TxOf(body[i].body) != ""
    ensures exists i :: 0 <= i < |body| && body[i].body.Broadcast? && body[i].body.nonceId != ""
    ensures exists i :: 0 <= i < |body| && body[i].id.Some?
    ensures exists i :: 0 <= i < |body| && body[i].body.Submit?
  {
  }
}
