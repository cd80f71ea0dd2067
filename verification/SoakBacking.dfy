/**
 What stands behind the evidence that a soak journals (owner-soak-driver/zkdeal_owner_soak.py): the answers of the
 generation that wrote a line passed the checks that the code makes before it writes it.
 */
module SoakBacking {
  import opened Bytes
  import opened SoakEvents
  import opened SoakPlan
  import opened SoakDriver

  /** What the answers of a generation must have been for it to write a line with this id. */
  ghost predicate BackedBy(w: World, life: Life, id: Option<EventId>, body: Body)
  {
    match id
    case Some(SettleId(Aggregate(i))) => SettleBacked(life.aggregates(i), body)
    case Some(SponsorId) => SponsorBacked(life.sponsor, body)
    case Some(WithdrawId) => WithdrawBacked(life.withdraw, body)
    case Some(RecoveredId(DockerHostRestart)) => life.sealedBytesSame
    case None => life.safetyEvents == 0 && life.maxWaitMs <= w.m.maxFairnessWaitMs
    case _ => true
  }

  /** One blob transaction with the settlement selector bound eight members and six blobs; seven applied, one failed. */
  ghost predicate SettleBacked(a: AggregateAnswers, body: Body)
  {
    && a.selector == "0x5e8b37ac" && a.transactionType == 3 && a.boundMembers == 8 && a.boundBlobs == 6
    && a.applied == 7 && a.failed == 1 && a.operation.id != ""
    && body == Settle(8, 6, 7, 1, 7, 0, "owner-durable-operation", a.operation.id, "0x5e8b37ac", 3, true, false)
  }

  /** Four operations with the four selectors, paid by and refunded to someone else than the beneficiary. */
  ghost predicate SponsorBacked(a: SponsorAnswers, body: Body)
  {
    var ids := Selectors(a.reserve.id, a.renew.id, a.checkpoint.id, a.dispose.id);
    && a.selectors == Selectors("0x827ac259", "0xf180fe5d", "0xe19bc67e", "0xed97f11a")
    && a.payer != "" && a.payer != a.beneficiary && a.refundRecipient == a.payer && a.split
    && "" !in {a.reserve.id, a.renew.id, a.checkpoint.id, a.dispose.id}
    && body == Sponsor(a.payer, a.beneficiary, a.payer, false, "owner-durable-operation", true, ids, a.selectors, true)
  }

  /** One claim with the withdrawal selector, whose replay was rejected. */
  ghost predicate WithdrawBacked(a: WithdrawAnswers, body: Body)
  {
    && a.selector == "0xb051a9f8" && a.replayRejected && a.operation.id != ""
    && body == Withdraw(true, true, true, "owner-durable-operation", a.operation.id, "0xb051a9f8", true)
  }

  // ---- a line is written only after the checks before it ----

  ghost predicate AllFit(j: EventLog, fits: (Option<EventId>, Body) -> bool)
  {
    forall i :: 0 <= i < |j| ==> fits(j[i].id, j[i].body)
  }

  ghost predicate Passed(script: seq<Action>)
  {
    forall i :: 0 <= i < |script| && script[i].Require? ==> script[i].ok
  }

  /** An action that writes lines writes such lines. */
  ghost predicate Writes(a: Action, fits: (Option<EventId>, Body) -> bool)
  {
    match a
    case Emit(id, body) => fits(Some(id), body)
    case Charges(step, _, _, _) => forall c, u, v :: fits(Some(ChargeId(c)), Charge(c, u, v, step))
    case Reconciles(_) => forall u, v :: fits(Some(ReconcileId), Reconcile(u, v))
    case Close(_) => forall body: Body :: fits(None, body)
    case _ => true
  }

  /** Every action that is reached only when the checks before it passed writes such lines. */
  ghost predicate Guarded(script: seq<Action>, fits: (Option<EventId>, Body) -> bool)
  {
    forall i :: 0 <= i < |script| && Passed(script[..i]) ==> Writes(script[i], fits)
  }

  lemma GuardedThen(a: seq<Action>, b: seq<Action>, fits: (Option<EventId>, Body) -> bool)
    requires Guarded(a, fits) && (Passed(a) ==> Guarded(b, fits))
    ensures Guarded(a + b, fits)
  {
    var c := a + b;
    forall i | 0 <= i < |c| && Passed(c[..i])
      ensures Writes(c[i], fits)
    {
      if i < |a| {
        assert c[..i] == a[..i];
      } else {
        assert c[..i] == a + b[..i - |a|];
        forall k | 0 <= k < |a| && a[k].Require?
          ensures a[k].ok
        {
          assert c[..i][k] == a[k];
        }
        var front := b[..i - |a|];
        forall k | 0 <= k < |front| && front[k].Require?
          ensures front[k].ok
        {
          assert c[..i][|a| + k] == b[k];
        }
      }
    }
  }

  lemma GuardedRest(script: seq<Action>, fits: (Option<EventId>, Body) -> bool)
    requires script != [] && Guarded(script, fits) && (script[0].Require? ==> script[0].ok)
    ensures Guarded(script[1..], fits)
  {
    var rest := script[1..];
    forall i | 0 <= i < |rest| && Passed(rest[..i])
      ensures Writes(rest[i], fits)
    {
      var front := script[..i + 1];
      forall k | 0 <= k < |front| && front[k].Require?
        ensures front[k].ok
      {
        if k > 0 { assert rest[..i][k - 1] == script[k]; }
      }
      assert Passed(front) && script[i + 1] == rest[i];
    }
  }

  lemma OneMore(j: EventLog, e: Event, fits: (Option<EventId>, Body) -> bool)
    requires AllFit(j, fits) && fits(e.id, e.body)
    ensures AllFit(j + [e], fits)
  {
  }

  lemma EmitFits(d: Disk, id: EventId, body: Body, fits: (Option<EventId>, Body) -> bool)
    requires AllFit(d.journal, fits) && fits(Some(id), body)
    ensures AllFit(Emitted(d, id, body).journal, fits)
  {
    OneMore(d.journal, Event(|d.journal| + 1, Some(id), body, d.state.boots), fits);
  }

  lemma {:induction false} EntriesFit(d: Disk, entries: seq<Entry>, step: Step, kill: nat,
      fits: (Option<EventId>, Body) -> bool)
    requires AllFit(d.journal, fits) && forall c, u, v :: fits(Some(ChargeId(c)), Charge(c, u, v, step))
    ensures AllFit(EmitEntries(d, entries, step, kill).disk.journal, fits)
    decreases |entries|
  {
    if entries != [] && kill > 0 {
      var e := entries[0];
      var body := Charge(e.chargeId, e.usageUnits, e.chargeWei, step);
      EmitFits(d, ChargeId(e.chargeId), body, fits);
      EntriesFit(Emitted(d, ChargeId(e.chargeId), body), entries[1..], step, kill - 1, fits);
    }
  }

  lemma ActFits(w: World, d: Disk, a: Action, kill: nat, fits: (Option<EventId>, Body) -> bool)
    requires AllFit(d.journal, fits) && Writes(a, fits)
    ensures AllFit(Act(w, d, a, kill).disk.journal, fits)
    ensures Act(w, d, a, kill).end.Finished? && a.Require? ==> a.ok
  {
    if kill > 0 {
      match a {
        case Emit(id, body) => EmitFits(d, id, body, fits);
        case Charges(step, from, until, expected) =>
          if PageAt(w.ledger, from, until, d.state.cursor) {
            EntriesFit(d, w.ledger[from..until], step, kill - 1, fits);
          }
        case Reconciles(_) => EmitFits(d, ReconcileId, Reconcile(Usage(d.journal), Wei(d.journal)), fits);
        case Close(duration) => OneMore(d.journal, ClosureEvent(w, d.journal, duration, d.state.boots), fits);
        case _ =>
      }
    }
  }

  lemma {:induction false} ScriptFits(w: World, d: Disk, script: seq<Action>, kill: nat,
      fits: (Option<EventId>, Body) -> bool)
    requires AllFit(d.journal, fits) && Guarded(script, fits)
    ensures AllFit(RunScript(w, d, script, kill).disk.journal, fits)
    decreases |script|
  {
    if script != [] {
      assert Passed(script[..0]);
      ActFits(w, d, script[0], kill, fits);
      var t := Act(w, d, script[0], kill);
      if t.end == Finished {
        GuardedRest(script, fits);
        ScriptFits(w, t.disk, script[1..], t.kill, fits);
      }
    }
  }

  // ---- the scripts ----

  /** A line that needs no more than its text. */
  ghost predicate Plain(id: EventId)
  {
    match id
    case SettleId(_) => false
    case SponsorId => false
    case WithdrawId => false
    case RecoveredId(f) => f != DockerHostRestart
    case _ => true
  }

  /** Plain lines fit. */
  ghost predicate PlainFits(fits: (Option<EventId>, Body) -> bool)
  {
    forall id, body :: Plain(id) ==> fits(Some(id), body)
  }

  ghost predicate AllPlain(script: seq<Action>)
  {
    forall i :: 0 <= i < |script| ==>
      !script[i].Close? && !script[i].MarkDone? && (script[i].Emit? ==> Plain(script[i].id))
  }

  lemma PlainGuarded(script: seq<Action>, fits: (Option<EventId>, Body) -> bool)
    requires AllPlain(script) && PlainFits(fits)
    ensures Guarded(script, fits)
  {
  }

  lemma {:induction false} RoomsPlain(rooms: seq<string>)
    ensures AllPlain(CreateRooms(rooms))
  {
    if rooms != [] { RoomsPlain(rooms[1..]); }
  }

  lemma {:induction false} AdmitPlain(room: string, admissions: seq<Admission>)
    ensures AllPlain(Admit(room, admissions))
  {
    if admissions != [] { AdmitPlain(room, admissions[1..]); }
  }

  lemma PulsePlain(w: World, i: nat, a: PulseAnswers)
    ensures AllPlain(PulseScript(w, i, a))
  {
    AdmitPlain(PULSE_ROOM, a.admissions);
  }

  lemma {:induction false} MembersPlain(w: World, i: nat, a: AggregateAnswers, count: nat)
    requires count <= 8
    ensures AllPlain(MemberScripts(w, i, a, count))
  {
    if count > 0 {
      MembersPlain(w, i, a, count - 1);
      AdmitPlain(AGGREGATE_ROOMS[count - 1], a.members(count - 1).admissions);
    }
  }

  lemma {:induction false} BlobsPlain(i: nat, a: AggregateAnswers, count: nat)
    requires count <= 6
    ensures AllPlain(BlobScripts(i, a, count))
  {
    if count > 0 { BlobsPlain(i, a, count - 1); }
  }

  lemma AggregateGuarded(w: World, i: nat, a: AggregateAnswers, fits: (Option<EventId>, Body) -> bool)
    requires PlainFits(fits) && forall body :: SettleBacked(a, body) ==> fits(Some(SettleId(Aggregate(i))), body)
    ensures Guarded(AggregateScript(w, i, a), fits)
  {
    var members, blobs := MemberScripts(w, i, a, 8), BlobScripts(i, a, 6);
    MembersPlain(w, i, a, 8);
    BlobsPlain(i, a, 6);
    var stale := BroadcastOf(a.stale) + [Charges(Stale(i), a.stalePage.from, a.stalePage.until, Some(1))];
    var early := members + stale + blobs;
    PlainGuarded(early, fits);
    SettlementGuarded(w, i, a, fits);
    var rest := AggregateProof(w, i, a) + BroadcastOf(a.operation) + AggregateSettle(w, i, a);
    GuardedThen(early, rest, fits);
    assert AggregateScript(w, i, a) == early + rest;
  }

  lemma SettlementGuarded(w: World, i: nat, a: AggregateAnswers, fits: (Option<EventId>, Body) -> bool)
    requires PlainFits(fits) && forall body :: SettleBacked(a, body) ==> fits(Some(SettleId(Aggregate(i))), body)
    ensures Guarded(AggregateProof(w, i, a) + BroadcastOf(a.operation) + AggregateSettle(w, i, a), fits)
  {
    var proof, broadcast, settle := AggregateProof(w, i, a), BroadcastOf(a.operation), AggregateSettle(w, i, a);
    PlainGuarded(proof, fits);
    PlainGuarded(broadcast, fits);
    GuardedThen(proof, broadcast, fits);
    if Passed(proof + broadcast) {
      assert (proof + broadcast)[3] == Require(a.selector == AGGREGATE_SELECTOR && a.transactionType == 3);
      assert (proof + broadcast)[4] == Require(a.boundMembers == 8 && a.boundBlobs == 6);
      assert (proof + broadcast)[5] == broadcast[0];
      LastGuarded(w, i, a, fits);
    }
    GuardedThen(proof + broadcast, settle, fits);
  }

  lemma LastGuarded(w: World, i: nat, a: AggregateAnswers, fits: (Option<EventId>, Body) -> bool)
    requires PlainFits(fits) && forall body :: SettleBacked(a, body) ==> fits(Some(SettleId(Aggregate(i))), body)
    requires a.selector == AGGREGATE_SELECTOR && a.transactionType == 3 && a.boundMembers == 8 && a.boundBlobs == 6
    requires a.operation.id != ""
    ensures Guarded(AggregateSettle(w, i, a), fits)
  {
    var settle := AggregateSettle(w, i, a);
    forall k | 0 <= k < |settle| && Passed(settle[..k])
      ensures Writes(settle[k], fits)
    {
      if k == 2 { assert settle[..k][0] == settle[0] && SettleBacked(a, AggregateSettlement(a)); }
    }
  }

  lemma SponsorGuarded(a: SponsorAnswers, fits: (Option<EventId>, Body) -> bool)
    requires PlainFits(fits) && forall body :: SponsorBacked(a, body) ==> fits(Some(SponsorId), body)
    ensures Guarded(SponsorScript(a), fits)
  {
    var early := [Require(a.selectors == SPONSOR_SELECTORS)]
      + BroadcastOf(a.reserve) + BroadcastOf(a.renew) + BroadcastOf(a.checkpoint) + BroadcastOf(a.dispose);
    PlainGuarded(early, fits);
    if Passed(early) {
      assert early[0].ok && early[1].ok && early[3].ok && early[5].ok && early[7].ok;
      SponsorResultGuarded(a, fits);
    }
    GuardedThen(early, SponsorResult(a), fits);
  }

  lemma SponsorResultGuarded(a: SponsorAnswers, fits: (Option<EventId>, Body) -> bool)
    requires PlainFits(fits) && forall body :: SponsorBacked(a, body) ==> fits(Some(SponsorId), body)
    requires a.selectors == SPONSOR_SELECTORS
    requires a.reserve.id != "" && a.renew.id != "" && a.checkpoint.id != "" && a.dispose.id != ""
    ensures Guarded(SponsorResult(a), fits)
  {
    var result := SponsorResult(a);
    forall k | 0 <= k < |result| && Passed(result[..k])
      ensures Writes(result[k], fits)
    {
      if k == 2 { assert result[..k][0] == result[0] && SponsorBacked(a, result[2].body); }
    }
  }

  lemma WithdrawGuarded(a: WithdrawAnswers, fits: (Option<EventId>, Body) -> bool)
    requires PlainFits(fits) && forall body :: WithdrawBacked(a, body) ==> fits(Some(WithdrawId), body)
    ensures Guarded(WithdrawScript(a), fits)
  {
    var early := [Require(a.selector == WITHDRAWAL_SELECTOR)] + BroadcastOf(a.operation);
    PlainGuarded(early, fits);
    if Passed(early) {
      assert early[0].ok && early[1].ok;
      var result := WithdrawResult(a);
      forall k | 0 <= k < |result| && Passed(result[..k])
        ensures Writes(result[k], fits)
      {
        if k == 2 { assert result[..k][0] == result[0] && WithdrawBacked(a, result[2].body); }
      }
    }
    GuardedThen(early, WithdrawResult(a), fits);
  }

  lemma DockerGuarded(d: Disk, at: nat, sealedBytesSame: bool, fits: (Option<EventId>, Body) -> bool)
    requires PlainFits(fits)
    requires forall body :: sealedBytesSame ==> fits(Some(RecoveredId(DockerHostRestart)), body)
    ensures Guarded(DockerScript(d, at, sealedBytesSame), fits)
  {
    var script := DockerScript(d, at, sealedBytesSame);
    forall k | 0 <= k < |script| && Passed(script[..k])
      ensures Writes(script[k], fits)
    {
      if k == 4 { assert script[..k][2] == script[2]; }
    }
  }

  /** What this generation's answers back. */
  ghost predicate LifeFits(w: World, life: Life, fits: (Option<EventId>, Body) -> bool)
  {
    forall id, body :: BackedBy(w, life, id, body) ==> fits(id, body)
  }

  lemma SlotGuarded(w: World, d: Disk, slot: Slot, life: Life, fits: (Option<EventId>, Body) -> bool)
    requires LifeFits(w, life, fits)
    ensures Guarded(Script(w, d, slot, life), fits)
  {
    assert PlainFits(fits);
    match slot.key {
      case SetupSlot =>
        RoomsPlain([PULSE_ROOM] + AGGREGATE_ROOMS);
        PlainGuarded(Script(w, d, slot, life), fits);
      case PulseSlot(i) =>
        PulsePlain(w, i, life.pulses(i));
        PlainGuarded(Script(w, d, slot, life), fits);
      case AggregateSlot(i) => AggregateGuarded(w, i, life.aggregates(i), fits);
      case SponsorSlot => SponsorGuarded(life.sponsor, fits);
      case WithdrawSlot => WithdrawGuarded(life.withdraw, fits);
      case FaultSlot(f) =>
        if f == DockerHostRestart {
          DockerGuarded(d, slot.second, life.sealedBytesSame, fits);
        } else {
          PlainGuarded(Script(w, d, slot, life), fits);
        }
      case ReconcileSlot => PlainGuarded(Script(w, d, slot, life), fits);
    }
  }

  lemma {:induction false} SlotsFit(w: World, plan: seq<Slot>, i: nat, d: Disk, life: Life, kill: nat, misses: nat,
      fits: (Option<EventId>, Body) -> bool)
    requires i <= |plan| && AllFit(d.journal, fits) && LifeFits(w, life, fits)
    ensures AllFit(RunSlots(w, plan, i, d, life, kill, misses).0.disk.journal, fits)
    decreases |plan| - i
  {
    if i < |plan| {
      var slot := plan[i];
      if slot.key in d.state.steps {
        SlotsFit(w, plan, i + 1, d, life, kill, misses, fits);
      } else {
        var misses' := if life.late(slot.key) > GRACE_SECONDS then misses + 1 else misses;
        SlotGuarded(w, d, slot, life, fits);
        ScriptFits(w, d, Script(w, d, slot, life), kill, fits);
        var t := RunScript(w, d, Script(w, d, slot, life), kill);
        if t.end == Finished {
          var t' := Act(w, t.disk, MarkDone(slot.key, slot.second + life.delay(slot.key)), t.kill);
          if t'.end == Finished { SlotsFit(w, plan, i + 1, t'.disk, life, t'.kill, misses', fits); }
        }
      }
    }
  }

  lemma ClosingGuarded(w: World, life: Life, misses: nat, fits: (Option<EventId>, Body) -> bool)
    requires LifeFits(w, life, fits)
    ensures Guarded(ClosingScript(w, life, misses), fits)
  {
    var script := ClosingScript(w, life, misses);
    forall k | 0 <= k < |script| && Passed(script[..k])
      ensures Writes(script[k], fits)
    {
      if k == 4 {
        assert script[..k][1] == script[1] && script[..k][2] == script[2];
        forall body
          ensures fits(None, body)
        {
          assert BackedBy(w, life, None, body);
        }
      }
    }
  }

  lemma WorkerFits(w: World, d: Disk, life: Life, fits: (Option<EventId>, Body) -> bool)
    requires ManifestOk(w.m) && AllFit(d.journal, fits) && LifeFits(w, life, fits)
    ensures AllFit(RunWorker(w, d, life).journal, fits)
  {
    if !IsClosed(d.journal) && life.kill > 0 {
      var booted, plan := Rebooted(d), Plan(w.m);
      SlotsFit(w, plan, 0, booted, life, life.kill - 1, 0, fits);
      var (t, misses) := RunSlots(w, plan, 0, booted, life, life.kill - 1, 0);
      ClosingGuarded(w, life, misses, fits);
      ScriptFits(w, t.disk, ClosingScript(w, life, misses), t.kill, fits);
    }
  }

  lemma {:induction false} LivesFit(w: World, d: Disk, lives: seq<Life>, fits: (Option<EventId>, Body) -> bool)
    requires ManifestOk(w.m) && AllFit(d.journal, fits)
    requires forall i :: 0 <= i < |lives| ==> LifeFits(w, lives[i], fits)
    ensures AllFit(RunLives(w, d, lives).journal, fits)
    decreases |lives|
  {
    if lives != [] {
      WorkerFits(w, d, lives[0], fits);
      LivesFit(w, RunWorker(w, d, lives[0]), lives[1..], fits);
    }
  }

  /** Some generation's answers back the line. */
  ghost predicate Backed(w: World, lives: seq<Life>, id: Option<EventId>, body: Body)
  {
    exists i :: 0 <= i < |lives| && BackedBy(w, lives[i], id, body)
  }

  /**
   In the journal of any run there is no settlement, no sponsorship, no withdrawal, no recovery of the docker
   host and no closure without a generation whose answers passed every check that the code makes before it.
   */
  lemma EvidenceIsBacked(w: World, lives: seq<Life>)
    requires ManifestOk(w.m)
    ensures var j := RunLives(w, FRESH, lives).journal;
      forall i :: 0 <= i < |j| ==> Backed(w, lives, j[i].id, j[i].body)
  {
    var fits := (id: Option<EventId>, body: Body) => Backed(w, lives, id, body);
    LivesFit(w, FRESH, lives, fits);
  }

  // ---- a finished slot left all its lines ----

  ghost predicate Emits(script: seq<Action>, id: EventId)
  {
    exists i :: 0 <= i < |script| && script[i].Emit? && script[i].id == id
  }

  lemma EmitsLeft(a: seq<Action>, b: seq<Action>, id: EventId)
    requires Emits(a, id)
    ensures Emits(a + b, id)
  {
    var i :| 0 <= i < |a| && a[i].Emit? && a[i].id == id;
    assert (a + b)[i] == a[i];
  }

  lemma EmitsRight(a: seq<Action>, b: seq<Action>, id: EventId)
    requires Emits(b, id)
    ensures Emits(a + b, id)
  {
    var i :| 0 <= i < |b| && b[i].Emit? && b[i].id == id;
    assert (a + b)[|a| + i] == b[i];
  }

  lemma HasStays(j: EventLog, j': EventLog, id: EventId)
    requires j <= j' && HasId(j, id)
    ensures HasId(j', id)
  {
    var i :| 0 <= i < |j| && j[i].id == Some(id);
    assert j'[i] == j[i];
  }

  lemma {:induction false} EntriesGrow(d: Disk, entries: seq<Entry>, step: Step, kill: nat)
    ensures d.journal <= EmitEntries(d, entries, step, kill).disk.journal
    ensures EmitEntries(d, entries, step, kill).disk.state == d.state
    decreases |entries|
  {
    if entries != [] && kill > 0 {
      var e := entries[0];
      EntriesGrow(Emitted(d, ChargeId(e.chargeId), Charge(e.chargeId, e.usageUnits, e.chargeWei, step)),
                  entries[1..], step, kill - 1);
    }
  }

  lemma ActGrows(w: World, d: Disk, a: Action, kill: nat)
    ensures d.journal <= Act(w, d, a, kill).disk.journal
    ensures !a.MarkDone? ==> Act(w, d, a, kill).disk.state.steps == d.state.steps
    ensures Act(w, d, a, kill).end.Finished? && a.Emit? ==> HasId(Act(w, d, a, kill).disk.journal, a.id)
  {
    if kill > 0 {
      match a {
        case Emit(id, body) =>
          var j := Emitted(d, id, body).journal;
          if !HasId(d.journal, id) { assert j[|d.journal|].id == Some(id); }
        case Charges(step, from, until, expected) =>
          if PageAt(w.ledger, from, until, d.state.cursor) {
            EntriesGrow(d, w.ledger[from..until], step, kill - 1);
          }
        case _ =>
      }
    }
  }

  /** No slot is marked on the way. */
  ghost predicate Unmarked(script: seq<Action>)
  {
    forall i :: 0 <= i < |script| ==> !script[i].MarkDone?
  }

  lemma {:induction false} ScriptGrows(w: World, d: Disk, script: seq<Action>, kill: nat)
    ensures d.journal <= RunScript(w, d, script, kill).disk.journal
    ensures Unmarked(script) ==> RunScript(w, d, script, kill).disk.state.steps == d.state.steps
    decreases |script|
  {
    if script != [] {
      ActGrows(w, d, script[0], kill);
      var t := Act(w, d, script[0], kill);
      if t.end == Finished { ScriptGrows(w, t.disk, script[1..], t.kill); }
    }
  }

  lemma {:induction false} ScriptLeaves(w: World, d: Disk, script: seq<Action>, kill: nat, id: EventId)
    requires Emits(script, id) && RunScript(w, d, script, kill).end == Finished
    ensures HasId(RunScript(w, d, script, kill).disk.journal, id)
    decreases |script|
  {
    ActGrows(w, d, script[0], kill);
    var t := Act(w, d, script[0], kill);
    ScriptGrows(w, t.disk, script[1..], t.kill);
    if script[0].Emit? && script[0].id == id {
      HasStays(t.disk.journal, RunScript(w, d, script, kill).disk.journal, id);
    } else {
      var i :| 0 <= i < |script| && script[i].Emit? && script[i].id == id;
      assert script[1..][i - 1] == script[i];
      ScriptLeaves(w, t.disk, script[1..], t.kill, id);
    }
  }

  /** Setup creates nine rooms; an aggregate proves its eight members and itself, archives six blobs and settles. */
  ghost predicate Leaves(key: Key, id: EventId)
  {
    match key
    case SetupSlot => id.RoomCreateId? && id.room in ["101", "201", "202", "203", "204", "205", "206", "207", "208"]
    case PulseSlot(i) =>
      id in {LeaseId(Pulse(i)), SubmitId(Pulse(i)), LivePrepareId(Pulse(i)), ProveId(Pulse(i)), VerifyId(Pulse(i)),
        FinalizeId(Pulse(i))}
    case AggregateSlot(i) =>
      || (exists m: nat :: m < 8 && MemberLeaves(i, m, id))
      || (id.BlobId? && id.step == Aggregate(i) && id.member < 6)
      || id in {ProveId(Aggregate(i)), VerifyId(Aggregate(i)), SettleId(Aggregate(i)), FinalizeId(Aggregate(i))}
    case _ => false
  }

  ghost predicate MemberLeaves(i: nat, m: nat, id: EventId)
  {
    id in {SubmitId(Member(i, m)), LivePrepareId(Member(i, m)), ProveId(Member(i, m)), VerifyId(Member(i, m))}
  }

  lemma {:induction false} RoomEmitted(rooms: seq<string>, room: string)
    requires room in rooms
    ensures Emits(CreateRooms(rooms), RoomCreateId(room))
  {
    if rooms[0] == room {
      assert CreateRooms(rooms)[0].id == RoomCreateId(room);
    } else {
      RoomEmitted(rooms[1..], room);
      EmitsRight([Emit(RoomCreateId(rooms[0]), RoomCreate(rooms[0]))], CreateRooms(rooms[1..]), RoomCreateId(room));
    }
  }

  lemma ProofEmitted(w: World, step: Step, room: string, jobs: Jobs, id: EventId)
    requires id in {SubmitId(step), LivePrepareId(step), ProveId(step), VerifyId(step)}
    ensures Emits(ProveAndVerify(w, step, room, jobs), id)
  {
    var script := ProveAndVerify(w, step, room, jobs);
    assert script[1].id == SubmitId(step) && script[2].id == LivePrepareId(step);
    assert script[4].id == ProveId(step) && script[5].id == VerifyId(step);
  }

  lemma PulseEmitted(w: World, i: nat, a: PulseAnswers, id: EventId)
    requires Leaves(PulseSlot(i), id)
    ensures Emits(PulseScript(w, i, a), id)
  {
    var admit, lease := Admit(PULSE_ROOM, a.admissions), [Emit(LeaseId(Pulse(i)), Lease(PULSE_ROOM))];
    var proof, sent := ProveAndVerify(w, Pulse(i), PULSE_ROOM, a.jobs), BroadcastOf(a.operation);
    var last := [Emit(FinalizeId(Pulse(i)), Finalize(a.jobs.prove, w.digest(a.jobs.prove))),
                 Charges(Pulse(i), a.page.from, a.page.until, Some(1))];
    if id == LeaseId(Pulse(i)) {
      assert lease[0].id == id;
      EmitsRight(admit, lease, id);
      EmitsLeft(admit + lease, proof, id);
    } else if id == FinalizeId(Pulse(i)) {
      assert last[0].id == id;
      EmitsRight(admit + lease + proof + sent, last, id);
    } else {
      ProofEmitted(w, Pulse(i), PULSE_ROOM, a.jobs, id);
      EmitsRight(admit + lease, proof, id);
    }
    if id != FinalizeId(Pulse(i)) {
      EmitsLeft(admit + lease + proof, sent, id);
      EmitsLeft(admit + lease + proof + sent, last, id);
    }
  }

  lemma {:induction false} MemberEmitted(w: World, i: nat, a: AggregateAnswers, count: nat, m: nat, id: EventId)
    requires m < count <= 8 && MemberLeaves(i, m, id)
    ensures Emits(MemberScripts(w, i, a, count), id)
  {
    var room := AGGREGATE_ROOMS[count - 1];
    var front, admit := MemberScripts(w, i, a, count - 1), Admit(room, a.members(count - 1).admissions);
    var proof := ProveAndVerify(w, Member(i, count - 1), room, a.members(count - 1).jobs);
    if m == count - 1 {
      ProofEmitted(w, Member(i, m), room, a.members(m).jobs, id);
      EmitsRight(front + admit, proof, id);
    } else {
      MemberEmitted(w, i, a, count - 1, m, id);
      EmitsLeft(front, admit, id);
      EmitsLeft(front + admit, proof, id);
    }
  }

  lemma {:induction false} BlobEmitted(i: nat, a: AggregateAnswers, count: nat, m: nat)
    requires m < count <= 6
    ensures Emits(BlobScripts(i, a, count), BlobId(Aggregate(i), m))
  {
    var front := BlobScripts(i, a, count - 1);
    var blob := [Require(a.blobJobs(count - 1) != ""),
                 Emit(BlobId(Aggregate(i), count - 1), BlobArchive(AGGREGATE_ROOMS[count - 1], a.blobJobs(count - 1)))];
    if m == count - 1 {
      assert blob[1].id == BlobId(Aggregate(i), m);
      EmitsRight(front, blob, BlobId(Aggregate(i), m));
    } else {
      BlobEmitted(i, a, count - 1, m);
      EmitsLeft(front, blob, BlobId(Aggregate(i), m));
    }
  }

  /** A line of any of four parts. */
  lemma EmitsWithin(a: seq<Action>, b: seq<Action>, c: seq<Action>, d: seq<Action>, id: EventId)
    requires Emits(a, id) || Emits(b, id) || Emits(c, id) || Emits(d, id)
    ensures Emits(a + b + c + d, id)
  {
    if Emits(a, id) { EmitsLeft(a, b, id); }
    if Emits(b, id) { EmitsRight(a, b, id); }
    if Emits(a + b, id) { EmitsLeft(a + b, c, id); }
    if Emits(c, id) { EmitsRight(a + b, c, id); }
    if Emits(a + b + c, id) { EmitsLeft(a + b + c, d, id); } else { EmitsRight(a + b + c, d, id); }
  }

  lemma SettlementEmitted(w: World, i: nat, a: AggregateAnswers, id: EventId)
    requires id in {ProveId(Aggregate(i)), VerifyId(Aggregate(i)), SettleId(Aggregate(i)), FinalizeId(Aggregate(i))}
    ensures Emits(AggregateProof(w, i, a), id) || Emits(AggregateSettle(w, i, a), id)
  {
    var proof, settle := AggregateProof(w, i, a), AggregateSettle(w, i, a);
    assert proof[1].id == ProveId(Aggregate(i)) && proof[2].id == VerifyId(Aggregate(i));
    assert settle[2].id == SettleId(Aggregate(i)) && settle[3].id == FinalizeId(Aggregate(i));
  }

  lemma AggregateEmitted(w: World, i: nat, a: AggregateAnswers, id: EventId)
    requires Leaves(AggregateSlot(i), id)
    ensures Emits(AggregateScript(w, i, a), id)
  {
    var members, blobs := MemberScripts(w, i, a, 8), BlobScripts(i, a, 6);
    if m: nat :| m < 8 && MemberLeaves(i, m, id) {
      MemberEmitted(w, i, a, 8, m, id);
    } else if id.BlobId? {
      BlobEmitted(i, a, 6, id.member);
    } else {
      SettlementEmitted(w, i, a, id);
    }
    AggregateParts(w, i, a, members, blobs, id);
  }

  lemma AggregateParts(
      w: World, i: nat, a: AggregateAnswers, members: seq<Action>, blobs: seq<Action>, id: EventId)
    requires members == MemberScripts(w, i, a, 8) && blobs == BlobScripts(i, a, 6)
    requires Emits(members, id) || Emits(blobs, id) || Emits(AggregateProof(w, i, a), id)
      || Emits(AggregateSettle(w, i, a), id)
    ensures Emits(AggregateScript(w, i, a), id)
  {
    var early := members + BroadcastOf(a.stale) + [Charges(Stale(i), a.stalePage.from, a.stalePage.until, Some(1))];
    var proof, sent, settle := AggregateProof(w, i, a), BroadcastOf(a.operation), AggregateSettle(w, i, a);
    if Emits(members, id) {
      EmitsLeft(members, BroadcastOf(a.stale), id);
      EmitsLeft(members + BroadcastOf(a.stale),
                [Charges(Stale(i), a.stalePage.from, a.stalePage.until, Some(1))], id);
    }
    if Emits(early, id) { EmitsLeft(early, blobs, id); }
    if Emits(blobs, id) { EmitsRight(early, blobs, id); }
    EmitsWithin(early + blobs, proof, sent, settle, id);
  }

  lemma SlotEmitted(w: World, d: Disk, slot: Slot, life: Life, id: EventId)
    requires Leaves(slot.key, id)
    ensures Emits(Script(w, d, slot, life), id)
  {
    match slot.key {
      case SetupSlot => RoomEmitted([PULSE_ROOM] + AGGREGATE_ROOMS, id.room);
      case PulseSlot(i) => PulseEmitted(w, i, life.pulses(i), id);
      case AggregateSlot(i) => AggregateEmitted(w, i, life.aggregates(i), id);
    }
  }

  /** Every slot on record as done has left all its lines. */
  ghost predicate Complete(d: Disk)
  {
    forall key, id :: key in d.state.steps && Leaves(key, id) ==> HasId(d.journal, id)
  }

  lemma StaysComplete(d: Disk, d': Disk)
    requires Complete(d) && d.journal <= d'.journal && d'.state.steps == d.state.steps
    ensures Complete(d')
  {
    forall key, id | key in d'.state.steps && Leaves(key, id)
      ensures HasId(d'.journal, id)
    {
      HasStays(d.journal, d'.journal, id);
    }
  }

  lemma AggregateUnmarked(w: World, i: nat, a: AggregateAnswers)
    ensures Unmarked(AggregateScript(w, i, a))
  {
    MembersPlain(w, i, a, 8);
    BlobsPlain(i, a, 6);
    UnmarkedThen(MemberScripts(w, i, a, 8), BroadcastOf(a.stale));
    var stale := [Charges(Stale(i), a.stalePage.from, a.stalePage.until, Some(1))];
    UnmarkedThen(MemberScripts(w, i, a, 8) + BroadcastOf(a.stale), stale);
    var early := MemberScripts(w, i, a, 8) + BroadcastOf(a.stale) + stale;
    UnmarkedThen(early, BlobScripts(i, a, 6));
    UnmarkedThen(early + BlobScripts(i, a, 6), AggregateProof(w, i, a));
    UnmarkedThen(early + BlobScripts(i, a, 6) + AggregateProof(w, i, a), BroadcastOf(a.operation));
    UnmarkedThen(early + BlobScripts(i, a, 6) + AggregateProof(w, i, a) + BroadcastOf(a.operation),
                 AggregateSettle(w, i, a));
  }

  lemma UnmarkedThen(a: seq<Action>, b: seq<Action>)
    requires Unmarked(a) && Unmarked(b)
    ensures Unmarked(a + b)
  {
  }

  lemma SponsorUnmarked(a: SponsorAnswers)
    ensures Unmarked(SponsorScript(a))
  {
  }

  lemma ScriptUnmarked(w: World, d: Disk, slot: Slot, life: Life)
    ensures Unmarked(Script(w, d, slot, life))
  {
    match slot.key {
      case SetupSlot => RoomsPlain([PULSE_ROOM] + AGGREGATE_ROOMS);
      case PulseSlot(i) => PulsePlain(w, i, life.pulses(i));
      case AggregateSlot(i) => AggregateUnmarked(w, i, life.aggregates(i));
      case SponsorSlot => SponsorUnmarked(life.sponsor);
      case _ =>
    }
  }

  /** A slot that is finished and marked is complete. */
  lemma DoneComplete(w: World, d: Disk, slot: Slot, life: Life, kill: nat, second: nat)
    requires Complete(d) && RunScript(w, d, Script(w, d, slot, life), kill).end == Finished
    ensures var t := RunScript(w, d, Script(w, d, slot, life), kill);
      Complete(t.disk) && Complete(t.disk.(state := Marked(t.disk.state, slot.key, second)))
  {
    var script := Script(w, d, slot, life);
    var t := RunScript(w, d, script, kill);
    ScriptUnmarked(w, d, slot, life);
    ScriptGrows(w, d, script, kill);
    StaysComplete(d, t.disk);
    forall id | Leaves(slot.key, id)
      ensures HasId(t.disk.journal, id)
    {
      SlotEmitted(w, d, slot, life, id);
      ScriptLeaves(w, d, script, kill, id);
    }
  }

  /** A slot that is cut anywhere marks nothing and drops nothing. */
  lemma CutComplete(w: World, d: Disk, slot: Slot, life: Life, kill: nat)
    requires Complete(d)
    ensures Complete(RunScript(w, d, Script(w, d, slot, life), kill).disk)
  {
    ScriptUnmarked(w, d, slot, life);
    ScriptGrows(w, d, Script(w, d, slot, life), kill);
    StaysComplete(d, RunScript(w, d, Script(w, d, slot, life), kill).disk);
  }

  lemma {:induction false} SlotsComplete(w: World, plan: seq<Slot>, i: nat, d: Disk, life: Life, kill: nat, misses: nat)
    requires i <= |plan| && Complete(d)
    ensures Complete(RunSlots(w, plan, i, d, life, kill, misses).0.disk)
    decreases |plan| - i
  {
    if i < |plan| {
      var slot := plan[i];
      if slot.key in d.state.steps {
        SlotsComplete(w, plan, i + 1, d, life, kill, misses);
      } else {
        var misses' := if life.late(slot.key) > GRACE_SECONDS then misses + 1 else misses;
        var t := RunScript(w, d, Script(w, d, slot, life), kill);
        CutComplete(w, d, slot, life, kill);
        if t.end == Finished {
          var second := slot.second + life.delay(slot.key);
          DoneComplete(w, d, slot, life, kill, second);
          var t' := Act(w, t.disk, MarkDone(slot.key, second), t.kill);
          if t'.end == Finished { SlotsComplete(w, plan, i + 1, t'.disk, life, t'.kill, misses'); }
        }
      }
    }
  }

  lemma WorkerComplete(w: World, d: Disk, life: Life)
    requires ManifestOk(w.m) && Complete(d)
    ensures Complete(RunWorker(w, d, life))
  {
    if !IsClosed(d.journal) && life.kill > 0 {
      var booted, plan := Rebooted(d), Plan(w.m);
      StaysComplete(d, booted);
      SlotsComplete(w, plan, 0, booted, life, life.kill - 1, 0);
      var (t, misses) := RunSlots(w, plan, 0, booted, life, life.kill - 1, 0);
      if t.end == Finished {
        ScriptGrows(w, t.disk, ClosingScript(w, life, misses), t.kill);
        StaysComplete(t.disk, RunScript(w, t.disk, ClosingScript(w, life, misses), t.kill).disk);
      }
    }
  }

  lemma {:induction false} LivesComplete(w: World, d: Disk, lives: seq<Life>)
    requires ManifestOk(w.m) && Complete(d)
    ensures Complete(RunLives(w, d, lives))
    decreases |lives|
  {
    if lives != [] {
      WorkerComplete(w, d, lives[0]);
      LivesComplete(w, RunWorker(w, d, lives[0]), lives[1..]);
    }
  }

  /**
   In every state of every run, whatever slot is on record as done has left all its lines: setup its nine
   rooms, a pulse its whole lineage, an aggregate those of eight members and its own, six blobs and the
   settlement.
   */
  lemma EvidenceIsComplete(w: World, lives: seq<Life>, key: Key, id: EventId)
    requires ManifestOk(w.m) && key in RunLives(w, FRESH, lives).state.steps && Leaves(key, id)
    ensures HasId(RunLives(w, FRESH, lives).journal, id)
  {
    LivesComplete(w, FRESH, lives);
  }
}
