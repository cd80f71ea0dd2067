/**
 The agreement between the soak driver and its verifier: in every state of every crashed and resumed
 run the two durable files satisfy the invariant, and any closure that is written is accepted.
 */
module SoakClosure {
  import opened Bytes
  import opened SoakEvents
  import opened SoakPlan
  import opened SoakDriver
  import opened SoakVerifier
  import opened SoakInvariant
  import opened Text

  // ---- what the verifier looks for, from the evidence in the journal ----

  ghost predicate AllFit(w: World, j: EventLog)
  {
    forall i :: 0 <= i < |j| ==> j[i].id.Some? && BodyFits(w, j[i].id.value, j[i].body) && !j[i].body.Closed?
  }

  lemma OpenFits(w: World, d: Disk)
    requires Core(w, d)
    ensures AllFit(w, d.journal)
  {
  }

  lemma Holds(w: World, j: EventLog, id: EventId) returns (i: nat)
    requires AllFit(w, j) && HasId(j, id)
    ensures i < |j| && j[i].id == Some(id) && BodyFits(w, id, j[i].body)
  {
    i :| 0 <= i < |j| && j[i].id == Some(id);
  }

  lemma LastPasses(j: EventLog, kind: Kind, check: Body -> bool)
    requires Present(j, kind) && forall i :: 0 <= i < |j| && KindOf(j[i].body) == kind ==> check(j[i].body)
    ensures LastOf(j, kind, check)
  {
    var i := LastIndex(j, kind);
  }

  /** Every event of a checked kind passes its check, not only the last one. */
  lemma KindsPass(w: World, j: EventLog)
    requires AllFit(w, j)
    ensures forall i :: 0 <= i < |j| ==>
      && (KindOf(j[i].body) == LivePrepareKind ==> PrepareOk(j[i].body))
      && (KindOf(j[i].body) == ProveKind ==> ProveOk(j[i].body))
      && (KindOf(j[i].body) == VerifyKind ==> VerifyOk(j[i].body))
      && (KindOf(j[i].body) == SettleKind ==> SettleOk(j[i].body))
      && (KindOf(j[i].body) == SponsorKind ==> SponsorOk(j[i].body))
      && (KindOf(j[i].body) == ReorgKind ==> ReorgOk(j[i].body))
      && (KindOf(j[i].body) == WithdrawKind ==> WithdrawOk(j[i].body))
  {
  }

  ghost predicate AllEvidence(j: EventLog)
  {
    forall k :: Planned(k) ==> Evidence(j, k)
  }

  ghost function KindOfId(id: EventId): Kind
  {
    match id
    case RoomCreateId(_) => RoomCreateKind
    case SubmitAdmissionId(_, _) => SubmitKind
    case LeaseId(_) => LeaseKind
    case SubmitId(_) => SubmitKind
    case LivePrepareId(_) => LivePrepareKind
    case ProveId(_) => ProveKind
    case VerifyId(_) => VerifyKind
    case FinalizeId(_) => FinalizeKind
    case BlobId(_, _) => BlobKind
    case SettleId(_) => SettleKind
    case SponsorId => SponsorKind
    case WithdrawId => WithdrawKind
    case ReconcileId => ReconcileKind
    case ReorgId => ReorgKind
    case _ => OtherKind
  }

  /** An id shows the kind of its event. */
  lemma Shows(w: World, j: EventLog, id: EventId)
    requires AllFit(w, j) && HasId(j, id)
    ensures Present(j, KindOfId(id))
  {
    var i := Holds(w, j, id);
    assert KindOf(j[i].body) == KindOfId(id);
  }

  /** An id whose event shows each kind, in the journal of a finished timeline. */
  ghost function IdOfKind(kind: Kind): EventId
    requires kind != OtherKind
  {
    match kind
    case RoomCreateKind => RoomCreateId(PULSE_ROOM)
    case SubmitKind => SubmitId(Pulse(0))
    case LeaseKind => LeaseId(Pulse(0))
    case LivePrepareKind => LivePrepareId(Pulse(0))
    case ProveKind => ProveId(Pulse(0))
    case VerifyKind => VerifyId(Pulse(0))
    case BlobKind => BlobId(Aggregate(0), 0)
    case SettleKind => SettleId(Aggregate(0))
    case SponsorKind => SponsorId
    case ReorgKind => ReorgId
    case FinalizeKind => FinalizeId(Pulse(0))
    case WithdrawKind => WithdrawId
    case ReconcileKind => ReconcileId
  }

  ghost function SlotOfKind(kind: Kind): Key
    requires kind != OtherKind
  {
    match kind
    case RoomCreateKind => SetupSlot
    case BlobKind => AggregateSlot(0)
    case SettleKind => AggregateSlot(0)
    case SponsorKind => SponsorSlot
    case ReorgKind => FaultSlot(IndexerRollback)
    case WithdrawKind => WithdrawSlot
    case ReconcileKind => ReconcileSlot
    case SubmitKind => PulseSlot(0)
    case LeaseKind => PulseSlot(0)
    case LivePrepareKind => PulseSlot(0)
    case ProveKind => PulseSlot(0)
    case VerifyKind => PulseSlot(0)
    case FinalizeKind => PulseSlot(0)
  }

  lemma KindLeft(j: EventLog, kind: Kind)
    requires kind != OtherKind && Evidence(j, SlotOfKind(kind))
    ensures HasId(j, IdOfKind(kind)) && KindOfId(IdOfKind(kind)) == kind
  {
  }

  /** The evidence of a finished timeline shows every lifecycle kind. */
  lemma EveryKind(w: World, j: EventLog)
    requires AllFit(w, j) && AllEvidence(j)
    ensures forall kind :: kind != OtherKind ==> Present(j, kind)
  {
    forall kind | kind != OtherKind
      ensures Present(j, kind)
    {
      assert Evidence(j, SlotOfKind(kind));
      KindLeft(j, kind);
      Shows(w, j, IdOfKind(kind));
    }
  }

  lemma FaultIsProved(w: World, j: EventLog, f: Fault)
    requires ManifestOk(w.m) && AllFit(w, j) && AllEvidence(j) && DistinctIds(j)
    ensures FaultProved(j, f, w.m.faults[f])
  {
    assert Evidence(j, FaultSlot(f));
    var i := Holds(w, j, FaultId(f));
    forall k | i < k < |j| && j[k].body.FaultBegan?
      ensures j[k].body.fault != f
    {
      assert j[k].id != j[i].id;
    }
    var r := Holds(w, j, RecoveredId(f));
  }

  lemma FieldsArePersisted(w: World, j: EventLog)
    requires AllFit(w, j) && AllEvidence(j)
    ensures FieldsPersisted(j)
  {
    assert Evidence(j, SetupSlot) && Evidence(j, PulseSlot(0));
    var a := Holds(w, j, RoomCreateId(PULSE_ROOM));
    assert RoomOf(j[a].body) != "";
    var b := Holds(w, j, SubmitId(Pulse(0)));
    assert JobOf(j[b].body) != "";
    var o :| HasId(j, BroadcastId(o));
    var c := Holds(w, j, BroadcastId(o));
    assert TxOf(j[c].body) != "";
  }

  lemma {:induction false} ChargeExists(j: EventLog, step: Step)
    requires StepCharges(j, step) > 0
    ensures exists i :: 0 <= i < |j| && j[i].body.Charge?
    decreases |j|
  {
    if !j[|j| - 1].body.Charge? {
      ChargeExists(j[..|j| - 1], step);
      var i :| 0 <= i < |j| - 1 && j[..|j| - 1][i].body.Charge?;
      assert j[i].body.Charge?;
    }
  }

  /** A result digest is a function of the job, so an output can only ever show one. */
  lemma SealsAreStable(w: World, j: EventLog)
    requires AllFit(w, j) && AllEvidence(j)
    ensures SealsStable(j)
  {
    assert Evidence(j, PulseSlot(0));
    var f := Holds(w, j, FinalizeId(Pulse(0)));
    forall i | 0 <= i < |j| && Seals(j[i].body)
      ensures Sealed(w, j[i].body)
    {
      SealFits(w, j[i]);
    }
    DigestsAreStable(w, j);
  }

  /** A seal is the digest of its output. */
  ghost predicate Sealed(w: World, b: Body)
  {
    Seals(b) && b.sealed == w.digest(b.outputId) && Hex64(b.sealed)
  }

  lemma SealFits(w: World, e: Event)
    requires EventFits(w, e) && Seals(e.body)
    ensures Sealed(w, e.body)
  {
  }

  lemma DigestsAreStable(w: World, j: EventLog)
    requires forall i :: 0 <= i < |j| && Seals(j[i].body) ==> Sealed(w, j[i].body)
    requires exists i :: 0 <= i < |j| && j[i].body.Finalize?
    ensures SealsStable(j)
  {
  }

  lemma LastsAllPass(w: World, j: EventLog)
    requires AllFit(w, j) && forall kind :: kind != OtherKind ==> Present(j, kind)
    ensures LastsPass(j)
  {
    KindsPass(w, j);
    LastPasses(j, LivePrepareKind, PrepareOk);
    LastPasses(j, ProveKind, ProveOk);
    LastPasses(j, VerifyKind, VerifyOk);
    LastPasses(j, SettleKind, SettleOk);
    LastPasses(j, SponsorKind, SponsorOk);
    LastPasses(j, ReorgKind, ReorgOk);
    LastPasses(j, WithdrawKind, WithdrawOk);
  }

  lemma AllOwned(w: World, j: EventLog)
    requires AllFit(w, j)
    ensures BroadcastsOwned(j)
  {
  }

  lemma SomeCharge(j: EventLog)
    requires AllEvidence(j)
    ensures exists i :: 0 <= i < |j| && j[i].body.Charge?
  {
    assert Evidence(j, PulseSlot(0));
    ChargeExists(j, Pulse(0));
  }

  lemma AllFaultsProved(w: World, j: EventLog)
    requires ManifestOk(w.m) && AllFit(w, j) && AllEvidence(j) && DistinctIds(j)
    ensures forall f :: f in w.m.faults ==> FaultProved(j, f, w.m.faults[f])
  {
    forall f | f in w.m.faults
      ensures FaultProved(j, f, w.m.faults[f])
    {
      FaultIsProved(w, j, f);
    }
  }

  /** The checks on the events before the closure, from the evidence and the asserted expectations. */
  lemma BodyAccepted(w: World, j: EventLog)
    requires ManifestOk(w.m) && AllFit(w, j) && AllEvidence(j) && DistinctIds(j)
    requires DistinctNonces(j) && DistinctCharges(j)
    requires Usage(j) == w.m.expectedUsage && Wei(j) == w.m.expectedWei
    ensures BodyOk(w.m, j)
  {
    EveryKind(w, j);
    LastsAllPass(w, j);
    AllFaultsProved(w, j);
    FieldsArePersisted(w, j);
    AllOwned(w, j);
    SomeCharge(j);
    SealsAreStable(w, j);
    Assembled(w.m, j);
  }

  lemma Assembled(m: Manifest, j: EventLog)
    requires AllKinds(j) && LastsPass(j) && FaultsProved(m, j) && SomethingCharged(j)
    requires FieldsPersisted(j) && BroadcastsOwned(j) && SealsStable(j)
    requires DistinctNonces(j) && DistinctCharges(j)
    requires Usage(j) == m.expectedUsage && Wei(j) == m.expectedWei
    ensures BodyOk(m, j)
  {
  }

  // ---- the closing script ----

  lemma DoneHasEvidence(w: World, d: Disk)
    requires ManifestOk(w.m) && TimelineOk(Plan(w.m), d) && DoneBefore(Plan(w.m), d, |Plan(w.m)|)
    ensures AllEvidence(d.journal)
  {
    PlanKeys(w.m);
    forall k | Planned(k)
      ensures Evidence(d.journal, k)
    {
      assert HasKey(Plan(w.m), k);
      var i :| 0 <= i < |Plan(w.m)| && Plan(w.m)[i].key == k;
    }
  }

  function Closing(w: World, d: Disk, durationSeconds: nat): Disk
  {
    d.(journal := d.journal + [ClosureEvent(w, d.journal, durationSeconds, d.state.boots)])
  }

  /** assert_expected and write_closure pass. */
  ghost predicate MayClose(w: World, d: Disk, life: Life, misses: nat)
  {
    && Expected(w, d, life.finalVisible) && life.safetyEvents == 0
    && life.maxWaitMs <= w.m.maxFairnessWaitMs && misses <= w.m.maxDeadlineMisses
  }

  /** A generation that reaches the end of its timeline writes the closure exactly when every check passes. */
  lemma ClosesExactly(w: World, d: Disk, life: Life, misses: nat, kill: nat)
    ensures RunScript(w, d, ClosingScript(w, life, misses), kill).disk
      == if MayClose(w, d, life, misses) && kill >= 5 then Closing(w, d, w.m.durationSeconds + life.finalDelay) else d
  {
    var close := [Close(w.m.durationSeconds + life.finalDelay)];
    var p, q, r := life.safetyEvents == 0, life.maxWaitMs <= w.m.maxFairnessWaitMs, misses <= w.m.maxDeadlineMisses;
    var checks := [Require(p)] + ([Require(q)] + ([Require(r)] + close));
    assert ClosingScript(w, life, misses) == [AssertExpected(life.finalVisible)] + checks;
    RunFirst(w, d, AssertExpected(life.finalVisible), checks, kill);
    if kill > 0 {
      ThreeChecks(w, d, p, q, r, close, kill - 1);
      if kill > 4 {
        RunFirst(w, d, Close(w.m.durationSeconds + life.finalDelay), [], kill - 4);
        assert close == [Close(w.m.durationSeconds + life.finalDelay)] + [];
      }
    }
  }

  lemma ThreeChecks(w: World, d: Disk, p: bool, q: bool, r: bool, rest: seq<Action>, kill: nat)
    ensures RunScript(w, d, [Require(p)] + ([Require(q)] + ([Require(r)] + rest)), kill)
         == if kill > 2 && p && q && r then RunScript(w, d, rest, kill - 3) else Turn(d, Stopped, 0)
  {
    RequireRuns(w, d, p, [Require(q)] + ([Require(r)] + rest), kill);
    if kill > 0 && p {
      RequireRuns(w, d, q, [Require(r)] + rest, kill - 1);
      if kill > 1 && q { RequireRuns(w, d, r, rest, kill - 2); }
    }
  }

  /** The closure of a finished timeline keeps the invariant, and the verifier accepts the journal. */
  lemma ClosureAccepted(w: World, d: Disk, visible: nat, duration: nat)
    requires ManifestOk(w.m) && Core(w, d) && AllEvidence(d.journal) && Expected(w, d, visible)
    requires duration >= w.m.durationSeconds
    ensures Accepts(w.m, w.h, Closing(w, d, duration).journal)
  {
    OpenFits(w, d);
    BodyAccepted(w, d.journal);
    ClosureChecks(w, d, duration);
  }

  lemma ClosureChecks(w: World, d: Disk, duration: nat)
    requires Numbered(d.journal) && BodyOk(w.m, d.journal) && duration >= w.m.durationSeconds
    ensures Accepts(w.m, w.h, Closing(w, d, duration).journal)
  {
    ClosureFits(w, d.journal, duration, d.state.boots);
    BodyThenClosure(w.m, w.h, d.journal, ClosureEvent(w, d.journal, duration, d.state.boots));
  }

  lemma ClosureFits(w: World, j: EventLog, duration: nat, generation: nat)
    requires Numbered(j) && duration >= w.m.durationSeconds
    ensures var e := ClosureEvent(w, j, duration, generation); ClosureOk(w.m, w.h, j, e.body) && Loads(j + [e])
  {
  }

  lemma BodyThenClosure(m: Manifest, h: Hashes, body: EventLog, e: Event)
    requires BodyOk(m, body) && ClosureOk(m, h, body, e.body) && Loads(body + [e])
    ensures Accepts(m, h, body + [e])
  {
    assert (body + [e])[..|body|] == body;
  }

  // ---- one generation ----

  /** The invariant while the soak is under way: open, consistent, with the slots done so far in evidence. */
  ghost predicate Open(w: World, d: Disk)
    requires ManifestOk(w.m)
  {
    Core(w, d) && TimelineOk(Plan(w.m), d)
  }

  /** A new generation is numbered above everything already written. */
  lemma BootOpen(w: World, d: Disk)
    requires ManifestOk(w.m) && Open(w, d)
    ensures var d' := Rebooted(d); Open(w, d') && Unannounced(d')
  {
    var d' := Rebooted(d);
    RestartStays(d, d');
    forall i | 0 <= i < |d.journal|
      ensures d'.journal[i].generation < d'.state.boots
    {
    }
  }

  /** What a closed journal adds to an open one: the closure, and nothing else. */
  ghost predicate ClosedFrom(w: World, d: Disk, d': Disk)
    requires ManifestOk(w.m)
  {
    && Core(w, d) && TimelineOk(Plan(w.m), d)
    && (exists duration :: d' == Closing(w, d, duration))
    && (exists visible :: Expected(w, d, visible))
    && d.state.resumeVerified && AllEvidence(d.journal)
    && Accepts(w.m, w.h, d'.journal)
  }

  /** The two files are either open, or one closure away from an open state. */
  ghost predicate Reachable(w: World, d: Disk)
    requires ManifestOk(w.m)
  {
    Open(w, d) || exists before :: ClosedFrom(w, before, d)
  }

  lemma FreshOpen(w: World)
    requires ManifestOk(w.m) && LedgerOk(w.ledger)
    ensures Open(w, FRESH)
  {
  }

  lemma ClosedMeans(w: World, d: Disk)
    requires ManifestOk(w.m) && Reachable(w, d)
    ensures IsClosed(d.journal) <==> !Open(w, d)
  {
    if Open(w, d) {
      OpenIsOpen(w, d);
    } else {
      var before :| ClosedFrom(w, before, d);
      ClosedIsClosed(w, before, d);
    }
  }

  lemma OpenIsOpen(w: World, d: Disk)
    requires ManifestOk(w.m) && Open(w, d)
    ensures !IsClosed(d.journal)
  {
  }

  lemma ClosedIsClosed(w: World, before: Disk, d: Disk)
    requires ManifestOk(w.m) && ClosedFrom(w, before, d)
    ensures IsClosed(d.journal)
  {
    var duration :| d == Closing(w, before, duration);
    assert d.journal[|before.journal|].body.Closed?;
  }

  lemma ClosingReaches(w: World, d: Disk, life: Life, misses: nat, duration: nat, d': Disk)
    requires ManifestOk(w.m) && Open(w, d) && AllEvidence(d.journal)
    requires MayClose(w, d, life, misses) && duration >= w.m.durationSeconds && d' == Closing(w, d, duration)
    ensures Extends(w, d, d')
  {
    ClosureAccepted(w, d, life.finalVisible, duration);
    ClosedExtends(w, d, life.finalVisible, duration, d');
  }

  lemma ClosedExtends(w: World, d: Disk, visible: nat, duration: nat, d': Disk)
    requires ManifestOk(w.m) && Open(w, d) && AllEvidence(d.journal) && Expected(w, d, visible)
    requires d' == Closing(w, d, duration) && Accepts(w.m, w.h, d'.journal)
    ensures Extends(w, d, d')
  {
    assert ClosedFrom(w, d, d');
  }

  /** A reachable state that continues another. */
  ghost predicate Extends(w: World, d: Disk, d': Disk)
    requires ManifestOk(w.m)
  {
    Reachable(w, d') && d.journal <= d'.journal
  }

  lemma CloseReaches(w: World, d: Disk, life: Life, misses: nat, kill: nat) returns (d': Disk)
    requires ManifestOk(w.m) && Open(w, d) && AllEvidence(d.journal)
    ensures d' == RunScript(w, d, ClosingScript(w, life, misses), kill).disk && Extends(w, d, d')
  {
    d' := RunScript(w, d, ClosingScript(w, life, misses), kill).disk;
    ClosesExactly(w, d, life, misses, kill);
    if d' == d {
      OpenExtends(w, d);
    } else {
      ClosingReaches(w, d, life, misses, w.m.durationSeconds + life.finalDelay, d');
    }
  }

  lemma OpenExtends(w: World, d: Disk)
    requires ManifestOk(w.m) && Open(w, d)
    ensures Extends(w, d, d)
  {
  }

  lemma TimelineReaches(w: World, d: Disk, life: Life, kill: nat)
    requires ManifestOk(w.m) && LedgerOk(w.ledger) && Open(w, d) && Unannounced(d)
    ensures var t := RunSlots(w, Plan(w.m), 0, d, life, kill, 0).0;
      && Open(w, t.disk) && d.journal <= t.disk.journal
      && (t.end == Finished ==> AllEvidence(t.disk.journal))
  {
    PlanIsOk(w.m);
    SlotsCore(w, Plan(w.m), 0, d, life, kill, 0);
    var t := RunSlots(w, Plan(w.m), 0, d, life, kill, 0).0;
    if t.end == Finished { DoneHasEvidence(w, t.disk); }
  }

  lemma ExtendsThen(w: World, d: Disk, d': Disk, d'': Disk)
    requires ManifestOk(w.m) && d.journal <= d'.journal && Extends(w, d', d'')
    ensures Extends(w, d, d'')
  {
  }

  /** The open state that a closed one was reached from. */
  lemma CameFrom(w: World, d: Disk) returns (before: Disk)
    requires ManifestOk(w.m) && Reachable(w, d) && IsClosed(d.journal)
    ensures Core(w, before) && AllEvidence(before.journal) && before.journal <= d.journal
    ensures (exists duration :: d == Closing(w, before, duration)) && exists visible :: Expected(w, before, visible)
  {
    ClosedMeans(w, d);
    before :| ClosedFrom(w, before, d);
  }

  /** One generation, wherever it ends. */
  lemma WorkerKeeps(w: World, d: Disk, life: Life)
    requires ManifestOk(w.m) && LedgerOk(w.ledger) && Reachable(w, d)
    ensures Extends(w, d, RunWorker(w, d, life))
  {
    ClosedMeans(w, d);
    if IsClosed(d.journal) || life.kill == 0 {
      assert Extends(w, d, d);
    } else {
      GenerationKeeps(w, d, life);
    }
  }

  lemma GenerationKeeps(w: World, d: Disk, life: Life)
    requires ManifestOk(w.m) && LedgerOk(w.ledger) && Open(w, d) && !IsClosed(d.journal) && life.kill > 0
    ensures Extends(w, d, RunWorker(w, d, life))
  {
    var booted := Rebooted(d);
    BootOpen(w, d);
    TimelineReaches(w, booted, life, life.kill - 1);
    var (t, misses) := RunSlots(w, Plan(w.m), 0, booted, life, life.kill - 1, 0);
    if t.end == Finished {
      var d' := CloseReaches(w, t.disk, life, misses, t.kill);
      ExtendsThen(w, d, t.disk, d');
    } else {
      OpenExtends(w, t.disk);
      ExtendsThen(w, d, t.disk, t.disk);
    }
  }

  /** Any number of generations, killed or failing anywhere. */
  lemma {:induction false} LivesKeep(w: World, d: Disk, lives: seq<Life>)
    requires ManifestOk(w.m) && LedgerOk(w.ledger) && Reachable(w, d)
    ensures Extends(w, d, RunLives(w, d, lives))
    decreases |lives|
  {
    if lives != [] {
      WorkerKeeps(w, d, lives[0]);
      LivesKeep(w, RunWorker(w, d, lives[0]), lives[1..]);
    }
  }

  // ---- every run ----

  /** A closed run came from an open state with every slot done and its expectations met. */
  lemma ClosedRun(w: World, lives: seq<Life>) returns (before: Disk)
    requires ManifestOk(w.m) && LedgerOk(w.ledger) && IsClosed(RunLives(w, FRESH, lives).journal)
    ensures var d := RunLives(w, FRESH, lives);
      && Core(w, before) && AllEvidence(before.journal) && before.journal <= d.journal
      && (exists duration :: d == Closing(w, before, duration)) && exists visible :: Expected(w, before, visible)
  {
    FreshOpen(w);
    LivesKeep(w, FRESH, lives);
    before := CameFrom(w, RunLives(w, FRESH, lives));
  }

  /** The closure line keeps the journal in order, the cursor covered and the restart real. */
  lemma ClosureLine(w: World, d: Disk, duration: nat)
    requires Core(w, d)
    ensures JournalOk(w, Closing(w, d, duration).journal, d.state.boots)
    ensures CursorCovered(w.ledger, Closing(w, d, duration)) && RestartReal(Closing(w, d, duration))
  {
    var d' := Closing(w, d, duration);
    AppendOk(w, d, ClosureEvent(w, d.journal, duration, d.state.boots));
    IdsGrow(d.journal, d'.journal);
    RestartStays(d, d');
  }

  lemma ClosedKeeps(w: World, d: Disk, d': Disk)
    requires ManifestOk(w.m) && ClosedFrom(w, d, d')
    ensures Inv(w, d')
  {
    var duration :| d' == Closing(w, d, duration);
    ClosureLine(w, d, duration);
    TimelineStays(Plan(w.m), d, d');
  }

  /** The invariant of the two files holds in every state of every crashed and resumed run. */
  lemma EveryRun(w: World, lives: seq<Life>)
    requires ManifestOk(w.m) && LedgerOk(w.ledger)
    ensures Inv(w, RunLives(w, FRESH, lives))
  {
    FreshOpen(w);
    LivesKeep(w, FRESH, lives);
    var d := RunLives(w, FRESH, lives);
    ClosedMeans(w, d);
    if !Open(w, d) {
      var before :| ClosedFrom(w, before, d);
      ClosedKeeps(w, before, d);
    }
  }

  /** Whatever journal the driver closes, under any schedule of kills, the verifier accepts. */
  lemma DriverVerifierAgreement(w: World, lives: seq<Life>)
    requires ManifestOk(w.m) && LedgerOk(w.ledger)
    requires IsClosed(RunLives(w, FRESH, lives).journal)
    ensures Accepts(w.m, w.h, RunLives(w, FRESH, lives).journal)
  {
    EveryRun(w, lives);
  }

  /** Once closed, further generations change neither file. */
  lemma {:induction false} ClosureIsFinal(w: World, d: Disk, lives: seq<Life>)
    requires ManifestOk(w.m) && IsClosed(d.journal)
    ensures RunLives(w, d, lives) == d
    decreases |lives|
  {
    if lives != [] { ClosureIsFinal(w, d, lives[1..]); }
  }

  /** Later generations only append. */
  lemma AppendOnly(w: World, first: seq<Life>, more: seq<Life>)
    requires ManifestOk(w.m) && LedgerOk(w.ledger)
    ensures RunLives(w, FRESH, first).journal <= RunLives(w, FRESH, first + more).journal
  {
    FreshOpen(w);
    LivesKeep(w, FRESH, first);
    LivesKeep(w, RunLives(w, FRESH, first), more);
    LivesThen(w, FRESH, first, more);
  }

  lemma {:induction false} LivesThen(w: World, d: Disk, first: seq<Life>, more: seq<Life>)
    requires ManifestOk(w.m)
    ensures RunLives(w, d, first + more) == RunLives(w, RunLives(w, d, first), more)
    decreases |first|
  {
    if first == [] {
      assert first + more == more;
    } else {
      assert (first + more)[0] == first[0] && (first + more)[1..] == first[1..] + more;
      LivesThen(w, RunWorker(w, d, first[0]), first[1..], more);
    }
  }

  /**
   In every state the lines are numbered from one, no event is there twice, nothing follows a closure,
   the completed slots are a prefix of the sorted plan, and each of them took at least its second.
   */
  lemma ExactlyOnce(w: World, lives: seq<Life>)
    requires ManifestOk(w.m) && LedgerOk(w.ledger)
    ensures var d := RunLives(w, FRESH, lives); var j, plan := d.journal, Plan(w.m);
      && (forall i :: 0 <= i < |j| ==> j[i].seqNo == i + 1)
      && (forall i, k :: 0 <= i < k < |j| && j[i].id.Some? ==> j[i].id != j[k].id)
      && (forall i :: 0 <= i < |j| && j[i].body.Closed? ==> i == |j| - 1)
      && (forall i, k :: 0 <= i < k < |plan| && plan[k].key in d.state.steps ==> plan[i].key in d.state.steps)
      && (forall i :: 0 <= i < |plan| && plan[i].key in d.state.steps ==> plan[i].second <= d.state.elapsed)
  {
    EveryRun(w, lives);
    TimelineParts(Plan(w.m), RunLives(w, FRESH, lives));
  }

  lemma TimelineParts(plan: seq<Slot>, d: Disk)
    requires TimelineOk(plan, d)
    ensures forall i, k :: 0 <= i < k < |plan| && plan[k].key in d.state.steps ==> plan[i].key in d.state.steps
    ensures forall i :: 0 <= i < |plan| && plan[i].key in d.state.steps ==> plan[i].second <= d.state.elapsed
  {
  }

  lemma ClosedShowsRestart(j: EventLog, j': EventLog)
    requires AllEvidence(j) && j <= j'
    ensures HasId(j', RecoveredId(DockerHostRestart))
  {
    assert Evidence(j, FaultSlot(DockerHostRestart));
    IdsGrow(j, j');
  }

  /**
   Every recovery of the docker host was written by a strictly later generation than its announcement
   and after a finalized output, and no closed journal is without one.
   */
  lemma RestartEvidenceIsReal(w: World, lives: seq<Life>)
    requires ManifestOk(w.m) && LedgerOk(w.ledger)
    ensures var j := RunLives(w, FRESH, lives).journal;
      && (forall r :: 0 <= r < |j| && j[r].id == Some(RecoveredId(DockerHostRestart)) ==> RestartProved(j, r))
      && (IsClosed(j) ==> HasId(j, RecoveredId(DockerHostRestart)))
  {
    var d := RunLives(w, FRESH, lives);
    EveryRun(w, lives);
    RestartsReal(d);
    if IsClosed(d.journal) {
      var before := ClosedRun(w, lives);
      ClosedShowsRestart(before.journal, d.journal);
    }
  }

  lemma RestartsReal(d: Disk)
    requires RestartReal(d)
    ensures forall r :: 0 <= r < |d.journal| && d.journal[r].id == Some(RecoveredId(DockerHostRestart)) ==>
      RestartProved(d.journal, r)
  {
  }
}
