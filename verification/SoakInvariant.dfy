/**
 What holds of the soak's two durable files in every state of every crashed and resumed run, and that
 every closure the driver writes is accepted by the independent verifier.
 */
module SoakInvariant {
  import opened Bytes
  import opened SoakEvents
  import opened SoakPlan
  import opened SoakDriver
  import opened SoakVerifier
  import opened Text

  // ---- single events ----

  /** What an event with a given id looks like, whichever generation wrote it. */
  ghost predicate BodyFits(w: World, id: EventId, b: Body)
  {
    match id
    case RoomCreateId(room) => b == RoomCreate(room) && room != ""
    case SubmitAdmissionId(_, _) => b.Submit? && b.job.None?
    case LeaseId(_) => b.Lease?
    case SubmitId(_) => b.Submit? && b.job.Some? && b.job.value != ""
    case LivePrepareId(_) => PrepareOk(b)
    case ProveId(_) => ProveOk(b) && b.sealed == w.digest(b.outputId) && Hex64(b.sealed)
    case VerifyId(_) => VerifyOk(b)
    case BroadcastId(o) =>
      b.Broadcast? && b.operationId == o && o != "" && b.publisher == OWNER && b.nonceId != "" && b.txHash != ""
    case FinalizeId(_) => b.Finalize? && b.sealed == w.digest(b.outputId) && Hex64(b.sealed)
    case ChargeId(c) => b.Charge? && b.chargeId == c
    case BlobId(_, _) => b.BlobArchive?
    case SettleId(_) => SettleOk(b)
    case SponsorId => SponsorOk(b)
    case WithdrawId => WithdrawOk(b)
    case ReconcileId => b.Reconcile?
    case ReorgId => ReorgOk(b)
    case FaultId(f) => f in w.m.faults && b == FaultBegan(f, w.m.faults[f])
    case RecoveredId(f) => b == FaultRecovered(f)
  }

  ghost predicate EventFits(w: World, e: Event)
  {
    if e.id.Some? then BodyFits(w, e.id.value, e.body) else e.body.Closed?
  }

  /** The charge of an event is an entry of the ledger. */
  ghost predicate InLedger(l: Ledger, b: Body)
  {
    b.Charge? ==> exists n :: 0 <= n < |l| && l[n].chargeId == b.chargeId
                              && l[n].usageUnits == b.usageUnits && l[n].chargeWei == b.chargeWei
  }

  // ---- the journal ----

  ghost predicate Numbered(j: EventLog)
  {
    forall i :: 0 <= i < |j| ==> j[i].seqNo == i + 1
  }

  ghost predicate DistinctIds(j: EventLog)
  {
    forall i, k :: 0 <= i < k < |j| && j[i].id.Some? ==> j[i].id != j[k].id
  }

  ghost predicate NothingAfterClosure(j: EventLog)
  {
    forall i :: 0 <= i < |j| - 1 ==> !j[i].body.Closed?
  }

  ghost predicate Generations(j: EventLog, boots: nat)
  {
    && (forall i :: 0 <= i < |j| ==> j[i].generation <= boots)
    && (forall i, k :: 0 <= i < k < |j| ==> j[i].generation <= j[k].generation)
  }

  ghost predicate JournalOk(w: World, j: EventLog, boots: nat)
  {
    && Numbered(j) && DistinctIds(j) && NothingAfterClosure(j) && Generations(j, boots)
    && forall i :: 0 <= i < |j| ==> EventOk(w, j[i])
  }

  /** A line in order: what it says fits its id, and a charge is an entry of the ledger. */
  ghost predicate EventOk(w: World, e: Event)
  {
    EventFits(w, e) && InLedger(w.ledger, e.body)
  }

  // ---- charges ----

  /** Every ledger entry up to the cursor is journaled. */
  ghost predicate CursorCovered(l: Ledger, d: Disk)
  {
    forall n :: 0 <= n < |l| && l[n].entryId <= d.state.cursor ==> HasId(d.journal, ChargeId(l[n].chargeId))
  }

  // ---- the restart ----

  /** A recovered restart: announced by an earlier generation, after a finalized output. */
  ghost predicate RestartProved(j: EventLog, r: nat)
    requires r < |j|
  {
    && (exists f :: 0 <= f < r && j[f].id == Some(FaultId(DockerHostRestart)) && j[f].generation < j[r].generation)
    && (exists f :: 0 <= f < r && j[f].body.Finalize?)
  }

  ghost predicate RestartReal(d: Disk)
  {
    forall r :: 0 <= r < |d.journal| && d.journal[r].id == Some(RecoveredId(DockerHostRestart)) ==>
      RestartProved(d.journal, r) && d.state.resumeVerified
  }

  /** This generation has not announced the restart: whoever does waits to be killed. */
  ghost predicate Unannounced(d: Disk)
  {
    forall i :: 0 <= i < |d.journal| && d.journal[i].id == Some(FaultId(DockerHostRestart)) ==>
      d.journal[i].generation < d.state.boots
  }

  // ---- the timeline ----

  /** What a completed slot has left in the journal. */
  ghost predicate Evidence(j: EventLog, k: Key)
  {
    match k
    case SetupSlot => HasId(j, RoomCreateId(PULSE_ROOM))
    case PulseSlot(i) =>
      && HasId(j, LeaseId(Pulse(i))) && HasId(j, SubmitId(Pulse(i))) && HasId(j, LivePrepareId(Pulse(i)))
      && HasId(j, ProveId(Pulse(i))) && HasId(j, VerifyId(Pulse(i))) && HasId(j, FinalizeId(Pulse(i)))
      && (exists o :: HasId(j, BroadcastId(o)))
      && StepCharges(j, Pulse(i)) >= 1
    case AggregateSlot(i) => HasId(j, SettleId(Aggregate(i))) && HasId(j, BlobId(Aggregate(i), 0))
    case SponsorSlot => HasId(j, SponsorId)
    case WithdrawSlot => HasId(j, WithdrawId)
    case FaultSlot(f) =>
      && HasId(j, FaultId(f)) && HasId(j, RecoveredId(f))
      && (f == IndexerRollback ==> HasId(j, ReorgId))
    case ReconcileSlot => HasId(j, ReconcileId)
  }

  /** Completed slots are the first ones of the plan, took their time, and left their evidence. */
  ghost predicate TimelineOk(plan: seq<Slot>, d: Disk)
  {
    && (forall i, k :: 0 <= i < k < |plan| && plan[k].key in d.state.steps ==> plan[i].key in d.state.steps)
    && (forall k :: k in d.state.steps ==> HasKey(plan, k) && Evidence(d.journal, k))
    && (forall i :: 0 <= i < |plan| && plan[i].key in d.state.steps ==> plan[i].second <= d.state.elapsed)
  }

  /** The invariant of the two files. */
  ghost predicate Inv(w: World, d: Disk)
    requires ManifestOk(w.m)
  {
    && JournalOk(w, d.journal, d.state.boots)
    && CursorCovered(w.ledger, d)
    && RestartReal(d)
    && TimelineOk(Plan(w.m), d)
    && (IsClosed(d.journal) ==> Accepts(w.m, w.h, d.journal))
  }

  // ---- journals only grow ----

  lemma IdsGrow(j: EventLog, j': EventLog)
    requires j <= j'
    ensures forall id :: HasId(j, id) ==> HasId(j', id)
  {
    forall id | HasId(j, id)
      ensures HasId(j', id)
    {
      var i :| 0 <= i < |j| && j[i].id == Some(id);
      assert j'[i] == j[i];
    }
  }

  lemma {:induction false} ChargesGrow(j: EventLog, j': EventLog, step: Step)
    requires j <= j'
    ensures StepCharges(j, step) <= StepCharges(j', step)
    decreases |j'|
  {
    if |j| < |j'| {
      assert j <= j'[..|j'| - 1];
      ChargesGrow(j, j'[..|j'| - 1], step);
    } else {
      assert j == j';
    }
  }

  lemma EvidenceStays(j: EventLog, j': EventLog, k: Key)
    requires j <= j' && Evidence(j, k)
    ensures Evidence(j', k)
  {
    IdsGrow(j, j');
    if k.PulseSlot? {
      ChargesGrow(j, j', Pulse(k.index));
    }
  }

  /** Appending a fitting event keeps the journal in order. */
  lemma AppendOk(w: World, d: Disk, e: Event)
    requires JournalOk(w, d.journal, d.state.boots) && !IsClosed(d.journal)
    requires e.seqNo == |d.journal| + 1 && e.generation == d.state.boots
    requires e.id.Some? ==> !HasId(d.journal, e.id.value)
    requires EventFits(w, e) && InLedger(w.ledger, e.body)
    ensures JournalOk(w, d.journal + [e], d.state.boots)
  {
    var j := d.journal + [e];
    forall i | 0 <= i < |d.journal| && e.id.Some?
      ensures j[i].id != e.id
    {
    }
  }

  // ---- one action ----

  /** The part of the invariant that every single action keeps while the journal is open. */
  ghost predicate Core(w: World, d: Disk)
  {
    && JournalOk(w, d.journal, d.state.boots) && CursorCovered(w.ledger, d) && RestartReal(d)
    && !IsClosed(d.journal)
  }

  /** Lines are only added, and of the state only the cursor moves. */
  ghost predicate Grown(d: Disk, d': Disk)
  {
    d.journal <= d'.journal && d'.state == d.state.(cursor := d'.state.cursor)
  }

  ghost predicate DockerId(id: EventId)
  {
    id == FaultId(DockerHostRestart) || id == RecoveredId(DockerHostRestart)
  }

  lemma RestartStays(d: Disk, d': Disk)
    requires RestartReal(d) && d.journal <= d'.journal && (d.state.resumeVerified ==> d'.state.resumeVerified)
    requires forall i :: |d.journal| <= i < |d'.journal| ==> d'.journal[i].id != Some(RecoveredId(DockerHostRestart))
    ensures RestartReal(d')
  {
    forall r | 0 <= r < |d'.journal| && d'.journal[r].id == Some(RecoveredId(DockerHostRestart))
      ensures RestartProved(d'.journal, r) && d'.state.resumeVerified
    {
      assert d.journal[r] == d'.journal[r];
      ProvedStays(d.journal, d'.journal, r);
    }
  }

  /** Emitting a fitting event, for the first time or again. */
  lemma EmitCore(w: World, d: Disk, id: EventId, b: Body)
    requires Core(w, d) && BodyFits(w, id, b) && InLedger(w.ledger, b) && !DockerId(id)
    ensures var d' := Emitted(d, id, b);
      Core(w, d') && Grown(d, d') && HasId(d'.journal, id) && (Unannounced(d) ==> Unannounced(d'))
  {
    var d' := Emitted(d, id, b);
    if !HasId(d.journal, id) {
      var e := Event(|d.journal| + 1, Some(id), b, d.state.boots);
      AppendOk(w, d, e);
      assert d'.journal == d.journal + [e];
      assert d'.journal[|d.journal|].id == Some(id);
      IdsGrow(d.journal, d'.journal);
      RestartStays(d, d');
    }
  }

  ghost predicate Carried(w: World, d: Disk, t: Turn)
  {
    Core(w, t.disk) && Grown(d, t.disk) && (Unannounced(d) ==> Unannounced(t.disk))
  }

  lemma EntryCore(w: World, d: Disk, e: Entry, step: Step)
    requires Core(w, d) && e in w.ledger
    ensures var d' := Emitted(d, ChargeId(e.chargeId), Charge(e.chargeId, e.usageUnits, e.chargeWei, step));
      && Core(w, d') && Grown(d, d') && d'.state == d.state && HasId(d'.journal, ChargeId(e.chargeId))
      && (Unannounced(d) ==> Unannounced(d'))
  {
    EmitCore(w, d, ChargeId(e.chargeId), Charge(e.chargeId, e.usageUnits, e.chargeWei, step));
  }

  /** What a run of emitted entries keeps and leaves. */
  ghost predicate EntriesLeft(w: World, d: Disk, t: Turn, entries: seq<Entry>)
  {
    && Carried(w, d, t) && t.disk.state == d.state
    && (t.end == Finished ==> forall e :: e in entries ==> HasId(t.disk.journal, ChargeId(e.chargeId)))
  }

  lemma {:induction false} EntriesCore(w: World, d: Disk, entries: seq<Entry>, step: Step, kill: nat)
    requires Core(w, d) && forall e :: e in entries ==> e in w.ledger
    ensures EntriesLeft(w, d, EmitEntries(d, entries, step, kill), entries)
    decreases |entries|
  {
    if entries == [] || kill == 0 {
      EntriesCut(w, d, entries, step, kill);
    } else {
      var e := entries[0];
      var d' := Emitted(d, ChargeId(e.chargeId), Charge(e.chargeId, e.usageUnits, e.chargeWei, step));
      EntryCore(w, d, e, step);
      EntriesCore(w, d', entries[1..], step, kill - 1);
      var t := EmitEntries(d', entries[1..], step, kill - 1);
      EntriesCompose(w, d, d', t, e, entries[1..]);
      assert entries == [e] + entries[1..];
    }
  }

  lemma EntriesCut(w: World, d: Disk, entries: seq<Entry>, step: Step, kill: nat)
    requires Core(w, d) && (entries == [] || kill == 0)
    ensures EntriesLeft(w, d, EmitEntries(d, entries, step, kill), entries)
  {
  }

  lemma EntriesCompose(w: World, d: Disk, d': Disk, t: Turn, e: Entry, rest: seq<Entry>)
    requires Grown(d, d') && d'.state == d.state && HasId(d'.journal, ChargeId(e.chargeId))
    requires Unannounced(d) ==> Unannounced(d')
    requires EntriesLeft(w, d', t, rest)
    ensures EntriesLeft(w, d, t, [e] + rest)
  {
    IdsGrow(d'.journal, t.disk.journal);
  }

  lemma CursorMoves(w: World, d: Disk, cursor: nat)
    requires Core(w, d)
    requires forall n :: 0 <= n < |w.ledger| && w.ledger[n].entryId <= cursor ==>
      HasId(d.journal, ChargeId(w.ledger[n].chargeId))
    ensures var d' := d.(state := d.state.(cursor := cursor));
      Core(w, d') && Grown(d, d') && (Unannounced(d) ==> Unannounced(d'))
  {
    RestartStays(d, d.(state := d.state.(cursor := cursor)));
  }

  /** The entries up to the last one of a page are the ones before the page and the page itself. */
  lemma PageCovers(w: World, d: Disk, from: nat, until: nat, j: EventLog)
    requires LedgerOk(w.ledger) && CursorCovered(w.ledger, d) && PageAt(w.ledger, from, until, d.state.cursor)
    requires from < until && d.journal <= j
    requires forall e :: e in w.ledger[from..until] ==> HasId(j, ChargeId(e.chargeId))
    ensures forall n :: 0 <= n < |w.ledger| && w.ledger[n].entryId <= w.ledger[until - 1].entryId ==>
      HasId(j, ChargeId(w.ledger[n].chargeId))
  {
    IdsGrow(d.journal, j);
    forall n | 0 <= n < |w.ledger| && w.ledger[n].entryId <= w.ledger[until - 1].entryId
      ensures HasId(j, ChargeId(w.ledger[n].chargeId))
    {
      if n < from {
        assert w.ledger[n].entryId <= d.state.cursor;
      } else {
        assert n < until;
        assert w.ledger[from..until][n - from] == w.ledger[n];
      }
    }
  }

  /** The lines of a page and then, unless killed in between, the cursor. */
  lemma PageCore(w: World, d: Disk, step: Step, from: nat, until: nat, kill: nat)
    requires Core(w, d) && LedgerOk(w.ledger) && PageAt(w.ledger, from, until, d.state.cursor)
    ensures var t := EmitEntries(d, w.ledger[from..until], step, kill);
      && Carried(w, d, t)
      && (t.end == Finished && from < until ==>
            Carried(w, d, t.(disk := t.disk.(state := t.disk.state.(cursor := w.ledger[until - 1].entryId)))))
  {
    var page := w.ledger[from..until];
    EntriesCore(w, d, page, step, kill);
    var t := EmitEntries(d, page, step, kill);
    if t.end == Finished && from < until {
      PageCovers(w, d, from, until, t.disk.journal);
      CursorMoves(w, t.disk, w.ledger[until - 1].entryId);
    }
  }

  /** Journaling a page before moving the cursor covers everything up to the new cursor. */
  lemma ChargesCore(w: World, d: Disk, step: Step, from: nat, until: nat, expected: Option<nat>, kill: nat)
    requires Core(w, d) && LedgerOk(w.ledger)
    ensures var t := EmitCharges(w, d, step, from, until, expected, kill);
      && Carried(w, d, t)
      && (t.end == Finished && expected.Some? ==> StepCharges(t.disk.journal, step) == expected.value)
  {
    if PageAt(w.ledger, from, until, d.state.cursor) {
      PageCore(w, d, step, from, until, kill);
    }
  }

  // ---- scripts ----

  /** Every event a script emits fits, given the checks that come before it. */
  ghost predicate Sound(w: World, script: seq<Action>)
    decreases |script|
  {
    script == [] ||
    match script[0]
    case Require(ok) => ok ==> Sound(w, script[1..])
    case Emit(id, b) => BodyFits(w, id, b) && !b.Charge? && !DockerId(id) && Sound(w, script[1..])
    case Charges(_, _, _, _) => Sound(w, script[1..])
    case Reconciles(_) => Sound(w, script[1..])
    case _ => false
  }

  /** What a finished action has left in the journal. */
  ghost predicate Left(j: EventLog, a: Action)
  {
    && (a.Emit? ==> HasId(j, a.id))
    && (a.Charges? && a.expected.Some? ==> StepCharges(j, a.step) >= a.expected.value)
    && (a.Reconciles? ==> HasId(j, ReconcileId))
  }

  lemma LeftStays(j: EventLog, j': EventLog, a: Action)
    requires j <= j' && Left(j, a)
    ensures Left(j', a)
  {
    IdsGrow(j, j');
    if a.Charges? { ChargesGrow(j, j', a.step); }
  }

  lemma ActCore(w: World, d: Disk, a: Action, kill: nat)
    requires Core(w, d) && LedgerOk(w.ledger) && Sound(w, [a])
    ensures var t := Act(w, d, a, kill);
      && Carried(w, d, t)
      && (t.end == Finished ==> Left(t.disk.journal, a) && (a.Require? ==> a.ok))
  {
    match a
    case Emit(id, b) => EmitCore(w, d, id, b);
    case Charges(step, from, until,
        expected) => if kill > 0 { ChargesCore(w, d, step, from, until, expected, kill - 1); }
    case Reconciles(_) => EmitCore(w, d, ReconcileId, Reconcile(Usage(d.journal), Wei(d.journal)));
    case _ =>
  }

  lemma {:induction false} RunCore(w: World, d: Disk, script: seq<Action>, kill: nat)
    requires Core(w, d) && LedgerOk(w.ledger) && Sound(w, script)
    ensures var t := RunScript(w, d, script, kill);
      && Carried(w, d, t)
      && (t.end == Finished ==> forall a :: a in script ==> Left(t.disk.journal, a))
    decreases |script|
  {
    if script != [] {
      var t := Act(w, d, script[0], kill);
      assert Sound(w, [script[0]]);
      ActCore(w, d, script[0], kill);
      if t.end == Finished {
        RunCore(w, t.disk, script[1..], t.kill);
        var u := RunScript(w, t.disk, script[1..], t.kill);
        if u.end == Finished {
          LeftStays(t.disk.journal, u.disk.journal, script[0]);
          assert script == [script[0]] + script[1..];
        }
      }
    }
  }

  // ---- the workload's scripts are sound ----

  ghost predicate Passes(script: seq<Action>)
  {
    forall a :: a in script && a.Require? ==> a.ok
  }

  /** A script may rely on the checks of the script before it. */
  lemma {:induction false} SoundThen(w: World, a: seq<Action>, b: seq<Action>)
    requires Sound(w, a) && (Passes(a) ==> Sound(w, b))
    ensures Sound(w, a + b)
    decreases |a|
  {
    if a == [] {
      assert a + b == b;
    } else {
      assert (a + b)[0] == a[0] && (a + b)[1..] == a[1..] + b;
      assert a == [a[0]] + a[1..];
      if a[0].Require? && !a[0].ok {
      } else {
        SoundThen(w, a[1..], b);
      }
    }
  }

  lemma {:induction false} RoomsSound(w: World, rooms: seq<string>)
    requires forall r :: r in rooms ==> r != ""
    ensures Sound(w, CreateRooms(rooms))
    ensures forall r :: r in rooms ==> Emit(RoomCreateId(r), RoomCreate(r)) in CreateRooms(rooms)
  {
    if rooms != [] {
      assert rooms == [rooms[0]] + rooms[1..];
      assert rooms[0] in rooms;
      assert forall r :: r in rooms[1..] ==> r in rooms;
      RoomsSound(w, rooms[1..]);
      assert CreateRooms(rooms)[1..] == CreateRooms(rooms[1..]);
    }
  }

  lemma {:induction false} AdmitSound(w: World, room: string, admissions: seq<Admission>)
    ensures Sound(w, Admit(room, admissions))
  {
    if admissions != [] {
      AdmitSound(w, room, admissions[1..]);
      assert Admit(room, admissions)[1..] == Admit(room, admissions[1..]);
    }
  }

  lemma BroadcastSound(w: World, o: Operation)
    ensures Sound(w, BroadcastOf(o))
    ensures Passes(BroadcastOf(o)) ==> o.id != ""
    ensures Emit(BroadcastId(o.id), Broadcast(o.nonceId, o.txHash, OWNER, o.id)) in BroadcastOf(o)
  {
    var s := BroadcastOf(o);
    assert s[0] in s && s[1] in s;
    assert Sound(w, s[1..][1..]);
    if s[0].ok { assert Sound(w, s[1..]); }
  }

  lemma ProveSound(w: World, step: Step, room: string, jobs: Jobs)
    ensures Sound(w, ProveAndVerify(w, step, room, jobs))
    ensures Passes(ProveAndVerify(w, step, room, jobs)) ==> Hex64(w.digest(jobs.prove))
  {
    var s := ProveAndVerify(w, step, room, jobs);
    assert s[3] in s;
    var s1 := s[1..];
    var s2 := s1[1..];
    var s3 := s2[1..];
    var s4 := s3[1..];
    var s5 := s4[1..];
    assert s5[1..] == [];
    assert Sound(w, s5[1..]) && Sound(w, s5);
    if s[3].ok { assert Sound(w, s4); }
    assert Sound(w, s3);
    if s[0].ok { assert Sound(w, s2); assert Sound(w, s1); }
  }

  lemma PassesBoth(a: seq<Action>, b: seq<Action>)
    ensures Passes(a + b) <==> Passes(a) && Passes(b)
  {
    assert forall x :: x in a + b <==> x in a || x in b;
  }

  lemma PulseSound(w: World, i: nat, a: PulseAnswers)
    ensures Sound(w, PulseScript(w, i, a))
  {
    var step := Pulse(i);
    var s1 := Admit(PULSE_ROOM, a.admissions);
    var s2 := [Emit(LeaseId(step), Lease(PULSE_ROOM))];
    var s3 := ProveAndVerify(w, step, PULSE_ROOM, a.jobs);
    var s4 := BroadcastOf(a.operation);
    var s5 := [Emit(FinalizeId(step), Finalize(a.jobs.prove, w.digest(a.jobs.prove))),
               Charges(step, a.page.from, a.page.until, Some(1))];
    AdmitSound(w, PULSE_ROOM, a.admissions);
    assert Sound(w, s2[1..]) && Sound(w, s2);
    ProveSound(w, step, PULSE_ROOM, a.jobs);
    BroadcastSound(w, a.operation);
    SoundThen(w, s1, s2);
    SoundThen(w, s1 + s2, s3);
    SoundThen(w, s1 + s2 + s3, s4);
    PassesBoth(s1 + s2 + s3, s4);
    PassesBoth(s1 + s2, s3);
    if Passes(s1 + s2 + s3 + s4) {
      assert Sound(w, s5[1..][1..]);
      assert Sound(w, s5[1..]);
    }
    SoundThen(w, s1 + s2 + s3 + s4, s5);
    assert PulseScript(w, i, a) == s1 + s2 + s3 + s4 + s5;
  }

  lemma {:induction false} MembersSound(w: World, i: nat, a: AggregateAnswers, count: nat)
    requires count <= 8
    ensures Sound(w, MemberScripts(w, i, a, count))
  {
    if count > 0 {
      var room, m := AGGREGATE_ROOMS[count - 1], a.members(count - 1);
      MembersSound(w, i, a, count - 1);
      AdmitSound(w, room, m.admissions);
      ProveSound(w, Member(i, count - 1), room, m.jobs);
      SoundThen(w, MemberScripts(w, i, a, count - 1), Admit(room, m.admissions));
      SoundThen(w, MemberScripts(w, i, a, count - 1) + Admit(room, m.admissions),
                ProveAndVerify(w, Member(i, count - 1), room, m.jobs));
    }
  }

  lemma {:induction false} BlobsSound(w: World, i: nat, a: AggregateAnswers, count: nat)
    requires count <= 6
    ensures Sound(w, BlobScripts(i, a, count))
  {
    if count > 0 {
      var s := [Require(a.blobJobs(count - 1) != ""),
                Emit(BlobId(Aggregate(i), count - 1), BlobArchive(AGGREGATE_ROOMS[count - 1], a.blobJobs(count - 1)))];
      BlobsSound(w, i, a, count - 1);
      assert Sound(w, s[1..][1..]);
      if s[0].ok { assert Sound(w, s[1..]); }
      SoundThen(w, BlobScripts(i, a, count - 1), s);
    }
  }

  /** The aggregate's proof and the checks on its transaction and its binding. */
  lemma AggregateProofSound(w: World, i: nat, a: AggregateAnswers)
    ensures Sound(w, AggregateProof(w, i, a))
    ensures Passes(AggregateProof(w, i, a)) ==>
      Hex64(w.digest(a.prove)) && a.boundMembers == 8 && a.boundBlobs == 6
  {
    var s := AggregateProof(w, i, a);
    assert s[0] in s && s[4] in s;
    assert Sound(w, s[1..][1..][1..][1..][1..]);
    assert Sound(w, s[1..][1..][1..][1..]);
    assert Sound(w, s[1..][1..][1..]);
    assert Sound(w, s[1..][1..]);
    if s[0].ok { assert Sound(w, s[1..]); }
  }

  /** The settlement reports what was bound, applied and charged. */
  lemma AggregateSettleSound(w: World, i: nat, a: AggregateAnswers)
    requires Hex64(w.digest(a.prove)) && a.boundMembers == 8 && a.boundBlobs == 6 && a.operation.id != ""
    ensures Sound(w, AggregateSettle(w, i, a))
  {
    var s := AggregateSettle(w, i, a);
    assert Sound(w, s[1..][1..][1..][1..]);
    assert Sound(w, s[1..][1..][1..]);
    if s[0].ok {
      assert Sound(w, s[1..][1..]);
      assert Sound(w, s[1..]);
    }
  }

  lemma AggregateSound(w: World, i: nat, a: AggregateAnswers)
    ensures Sound(w, AggregateScript(w, i, a))
    ensures Emit(SettleId(Aggregate(i)), AggregateSettlement(a)) in AggregateScript(w, i, a)
    ensures Emit(BlobId(Aggregate(i), 0), BlobArchive(AGGREGATE_ROOMS[0], a.blobJobs(0))) in AggregateScript(w, i, a)
  {
    var s1, s2 := MemberScripts(w, i, a, 8), BroadcastOf(a.stale);
    var s3 := [Charges(Stale(i), a.stalePage.from, a.stalePage.until, Some(1))];
    var s4 := BlobScripts(i, a, 6);
    var s5, s6, s7 := AggregateProof(w, i, a), BroadcastOf(a.operation), AggregateSettle(w, i, a);
    MembersSound(w, i, a, 8);
    BroadcastSound(w, a.stale);
    assert Sound(w, s3[1..]);
    BlobsSound(w, i, a, 6);
    AggregateProofSound(w, i, a);
    BroadcastSound(w, a.operation);
    SoundThen(w, s1, s2);
    SoundThen(w, s1 + s2, s3);
    SoundThen(w, s1 + s2 + s3, s4);
    SoundThen(w, s1 + s2 + s3 + s4, s5);
    SoundThen(w, s1 + s2 + s3 + s4 + s5, s6);
    PassesBoth(s1 + s2 + s3 + s4 + s5, s6);
    PassesBoth(s1 + s2 + s3 + s4, s5);
    if Passes(s1 + s2 + s3 + s4 + s5 + s6) {
      AggregateSettleSound(w, i, a);
    }
    SoundThen(w, s1 + s2 + s3 + s4 + s5 + s6, s7);
    assert AggregateScript(w, i, a) == s1 + s2 + s3 + s4 + s5 + s6 + s7;
    BlobIn(i, a, 6);
    assert s7[2] in s7;
  }

  lemma {:induction false} BlobIn(i: nat, a: AggregateAnswers, count: nat)
    requires 0 < count <= 6
    ensures Emit(BlobId(Aggregate(i), 0), BlobArchive(AGGREGATE_ROOMS[0], a.blobJobs(0))) in BlobScripts(i, a, count)
  {
    if count > 1 { BlobIn(i, a, count - 1); }
  }

  lemma SponsorSound(w: World, a: SponsorAnswers)
    ensures Sound(w, SponsorScript(a))
  {
    var s0 := [Require(a.selectors == SPONSOR_SELECTORS)];
    var s1, s2, s3, s4 := BroadcastOf(a.reserve), BroadcastOf(a.renew), BroadcastOf(a.checkpoint),
        BroadcastOf(a.dispose);
    var s5 := SponsorResult(a);
    assert Sound(w, s0[1..]);
    BroadcastSound(w, a.reserve);
    BroadcastSound(w, a.renew);
    BroadcastSound(w, a.checkpoint);
    BroadcastSound(w, a.dispose);
    SoundThen(w, s0, s1);
    SoundThen(w, s0 + s1, s2);
    SoundThen(w, s0 + s1 + s2, s3);
    SoundThen(w, s0 + s1 + s2 + s3, s4);
    PassesBoth(s0 + s1 + s2 + s3, s4);
    PassesBoth(s0 + s1 + s2, s3);
    PassesBoth(s0 + s1, s2);
    PassesBoth(s0, s1);
    if Passes(s0 + s1 + s2 + s3 + s4) {
      assert Sound(w, s5[1..][1..][1..]);
      if s5[0].ok {
        assert Sound(w, s5[1..][1..]);
        assert Sound(w, s5[1..]);
      }
    }
    SoundThen(w, s0 + s1 + s2 + s3 + s4, s5);
    assert SponsorScript(a) == s0 + s1 + s2 + s3 + s4 + s5;
  }

  lemma WithdrawSound(w: World, a: WithdrawAnswers)
    ensures Sound(w, WithdrawScript(a))
  {
    var s0, s1 := [Require(a.selector == WITHDRAWAL_SELECTOR)], BroadcastOf(a.operation);
    var s2 := WithdrawResult(a);
    assert Sound(w, s0[1..]);
    BroadcastSound(w, a.operation);
    SoundThen(w, s0, s1);
    PassesBoth(s0, s1);
    if Passes(s0 + s1) {
      assert Sound(w, s2[1..][1..][1..]);
      if s2[0].ok {
        assert Sound(w, s2[1..][1..]);
        assert Sound(w, s2[1..]);
      }
    }
    SoundThen(w, s0 + s1, s2);
    assert WithdrawScript(a) == s0 + s1 + s2;
  }

  /** A fault other than the docker restart announces, and recovers, and the rollback reports its reorg. */
  lemma FaultSound(w: World, d: Disk, f: Fault, life: Life)
    requires ManifestOk(w.m) && f != DockerHostRestart
    ensures Sound(w, FaultScript(d, f, w.m.faults[f], life))
  {
    var s := FaultScript(d, f, w.m.faults[f], life);
    if f == IndexerRollback {
      assert Sound(w, s[1..][1..][1..]);
    }
    assert Sound(w, s[1..][1..]);
    assert Sound(w, s[1..]);
  }

  // ---- every slot but the restart ----

  ghost predicate AllLeft(j: EventLog, script: seq<Action>)
  {
    forall a :: a in script ==> Left(j, a)
  }

  /** A planned slot: a fault slot starts at the second its fault is scheduled for. */
  ghost predicate SlotFits(w: World, slot: Slot)
    requires ManifestOk(w.m)
  {
    slot.key.FaultSlot? ==> slot.second == w.m.faults[slot.key.fault]
  }

  lemma SlotSound(w: World, d: Disk, slot: Slot, life: Life)
    requires ManifestOk(w.m) && SlotFits(w, slot) && slot.key != FaultSlot(DockerHostRestart)
    ensures Sound(w, Script(w, d, slot, life))
  {
    match slot.key
    case SetupSlot => RoomsSound(w, [PULSE_ROOM] + AGGREGATE_ROOMS);
    case PulseSlot(i) => PulseSound(w, i, life.pulses(i));
    case AggregateSlot(i) => AggregateSound(w, i, life.aggregates(i));
    case SponsorSlot => SponsorSound(w, life.sponsor);
    case WithdrawSlot => WithdrawSound(w, life.withdraw);
    case FaultSlot(f) => FaultSound(w, d, f, life);
    case ReconcileSlot =>
      var s := Script(w, d, slot, life);
      assert Sound(w, s[1..][1..]);
      assert Sound(w, s[1..]);
  }

  lemma PulseLeaves(w: World, i: nat, a: PulseAnswers, j: EventLog)
    requires AllLeft(j, PulseScript(w, i, a))
    ensures Evidence(j, PulseSlot(i))
  {
    var step := Pulse(i);
    var s1 := Admit(PULSE_ROOM, a.admissions);
    var s2 := [Emit(LeaseId(step), Lease(PULSE_ROOM))];
    var s3 := ProveAndVerify(w, step, PULSE_ROOM, a.jobs);
    var s4 := BroadcastOf(a.operation);
    var s5 := [Emit(FinalizeId(step), Finalize(a.jobs.prove, w.digest(a.jobs.prove))),
               Charges(step, a.page.from, a.page.until, Some(1))];
    var s := PulseScript(w, i, a);
    assert s == s1 + s2 + s3 + s4 + s5;
    assert s2[0] in s2 && s3[1] in s3 && s3[2] in s3 && s3[4] in s3 && s3[5] in s3;
    assert s4[1] in s4 && s5[0] in s5 && s5[1] in s5;
    assert Left(j, s2[0]) && Left(j, s3[1]) && Left(j, s3[2]) && Left(j, s3[4]) && Left(j, s3[5]);
    assert Left(j, s4[1]) && Left(j, s5[0]) && Left(j, s5[1]);
    assert HasId(j, BroadcastId(a.operation.id));
  }

  lemma SponsorLeaves(a: SponsorAnswers, j: EventLog)
    requires AllLeft(j, SponsorScript(a))
    ensures Evidence(j, SponsorSlot)
  {
    var s := SponsorResult(a);
    assert s[2] in s;
    assert Left(j, s[2]);
  }

  lemma WithdrawLeaves(a: WithdrawAnswers, j: EventLog)
    requires AllLeft(j, WithdrawScript(a))
    ensures Evidence(j, WithdrawSlot)
  {
    var s := WithdrawResult(a);
    assert s[2] in s;
    assert Left(j, s[2]);
  }

  lemma FaultLeaves(w: World, d: Disk, f: Fault, life: Life, j: EventLog)
    requires ManifestOk(w.m) && f != DockerHostRestart && AllLeft(j, FaultScript(d, f, w.m.faults[f], life))
    ensures Evidence(j, FaultSlot(f))
  {
    var s := FaultScript(d, f, w.m.faults[f], life);
    assert s[0] in s && s[1] in s;
    if f == IndexerRollback { assert s[2] in s; }
  }

  /** A finished slot has left its evidence. */
  lemma SlotLeaves(w: World, d: Disk, slot: Slot, life: Life, j: EventLog)
    requires ManifestOk(w.m) && SlotFits(w, slot) && slot.key != FaultSlot(DockerHostRestart)
    requires AllLeft(j, Script(w, d, slot, life))
    ensures Evidence(j, slot.key)
  {
    match slot.key
    case SetupSlot =>
      RoomsSound(w, [PULSE_ROOM] + AGGREGATE_ROOMS);
      assert Left(j, Emit(RoomCreateId(PULSE_ROOM), RoomCreate(PULSE_ROOM)));
    case PulseSlot(i) => PulseLeaves(w, i, life.pulses(i), j);
    case AggregateSlot(i) =>
      AggregateSound(w, i, life.aggregates(i));
      assert Left(j, Emit(SettleId(Aggregate(i)), AggregateSettlement(life.aggregates(i))));
      assert Left(j, Emit(BlobId(Aggregate(i), 0), BlobArchive(AGGREGATE_ROOMS[0], life.aggregates(i).blobJobs(0))));
    case SponsorSlot => SponsorLeaves(life.sponsor, j);
    case WithdrawSlot => WithdrawLeaves(life.withdraw, j);
    case FaultSlot(f) => FaultLeaves(w, d, f, life, j);
    case ReconcileSlot =>
      var s := Script(w, d, slot, life);
      assert s[1] in s;
  }

  // ---- the restart ----

  /** What running a slot changes: lines are added, the cursor moves, the resume may be verified. */
  ghost predicate Advanced(d: Disk, d': Disk)
  {
    && d.journal <= d'.journal && (d.state.resumeVerified ==> d'.state.resumeVerified)
    && d'.state == d.state.(cursor := d'.state.cursor, resumeVerified := d'.state.resumeVerified)
  }

  lemma AnnounceCore(w: World, d: Disk)
    requires ManifestOk(w.m) && Core(w, d)
    ensures var d' := Emitted(d, FaultId(DockerHostRestart),
      FaultBegan(DockerHostRestart, w.m.faults[DockerHostRestart]));
      Core(w, d') && Advanced(d, d')
  {
    var f := DockerHostRestart;
    var d' := Emitted(d, FaultId(f), FaultBegan(f, w.m.faults[f]));
    if !HasId(d.journal, FaultId(f)) {
      AppendOk(w, d, Event(|d.journal| + 1, Some(FaultId(f)), FaultBegan(f, w.m.faults[f]), d.state.boots));
      IdsGrow(d.journal, d'.journal);
      RestartStays(d, d');
    }
  }

  /** The recovery is written by a later generation than the announcement, after a finalized output. */
  lemma RecoverCore(w: World, d: Disk)
    requires Core(w, d) && Unannounced(d) && HasId(d.journal, FaultId(DockerHostRestart))
    requires d.state.resumeVerified && Finalized(d.journal)
    ensures var d' := Emitted(d, RecoveredId(DockerHostRestart), FaultRecovered(DockerHostRestart));
      Core(w, d') && Advanced(d, d') && Unannounced(d') && HasId(d'.journal, RecoveredId(DockerHostRestart))
  {
    var f := DockerHostRestart;
    if !HasId(d.journal, RecoveredId(f)) {
      var e := Event(|d.journal| + 1, Some(RecoveredId(f)), FaultRecovered(f), d.state.boots);
      var d' := d.(journal := d.journal + [e]);
      assert Emitted(d, RecoveredId(f), FaultRecovered(f)) == d';
      RecoveryProved(d, e);
      RestartsProved(d, d');
      AppendCore(w, d, e);
      assert Advanced(d, d');
    }
  }

  lemma RecoveryProved(d: Disk, e: Event)
    requires Unannounced(d) && HasId(d.journal, FaultId(DockerHostRestart)) && e.generation == d.state.boots
    requires Finalized(d.journal)
    ensures RestartProved(d.journal + [e], |d.journal|)
  {
    var j := d.journal + [e];
    var a :| 0 <= a < |d.journal| && d.journal[a].id == Some(FaultId(DockerHostRestart));
    var g :| 0 <= g < |d.journal| && d.journal[g].body.Finalize?;
    assert j[a] == d.journal[a] && j[g] == d.journal[g] && j[|d.journal|] == e;
  }

  lemma AppendCore(w: World, d: Disk, e: Event)
    requires Core(w, d) && e.id.Some? && !HasId(d.journal, e.id.value)
    requires e.seqNo == |d.journal| + 1 && e.generation == d.state.boots
    requires EventFits(w, e) && !e.body.Closed? && !e.body.Charge? && e.id != Some(FaultId(DockerHostRestart))
    requires RestartReal(d.(journal := d.journal + [e]))
    ensures var d' := d.(journal := d.journal + [e]);
      Core(w, d') && HasId(d'.journal, e.id.value) && (Unannounced(d) ==> Unannounced(d'))
  {
    var d' := d.(journal := d.journal + [e]);
    AppendOk(w, d, e);
    IdsGrow(d.journal, d'.journal);
    assert d'.journal[|d.journal|] == e;
  }

  lemma RestartsProved(d: Disk, d': Disk)
    requires RestartReal(d) && d.journal <= d'.journal && |d'.journal| == |d.journal| + 1
    requires d'.state.resumeVerified && RestartProved(d'.journal, |d.journal|)
    ensures RestartReal(d')
  {
    forall r | 0 <= r < |d'.journal| && d'.journal[r].id == Some(RecoveredId(DockerHostRestart))
      ensures RestartProved(d'.journal, r)
    {
      if r < |d.journal| {
        assert d.journal[r] == d'.journal[r];
        ProvedStays(d.journal, d'.journal, r);
      }
    }
  }

  lemma ProvedStays(j: EventLog, j': EventLog, r: nat)
    requires j <= j' && r < |j| && RestartProved(j, r)
    ensures RestartProved(j', r)
  {
    var f :| 0 <= f < r && j[f].id == Some(FaultId(DockerHostRestart)) && j[f].generation < j[r].generation;
    assert j'[f] == j[f] && j'[r] == j[r];
    var g :| 0 <= g < r && j[g].body.Finalize?;
    assert j'[g] == j[g];
  }

  lemma VerifiedCore(w: World, d: Disk)
    requires Core(w, d) && Unannounced(d)
    ensures var d' := d.(state := d.state.(resumeVerified := true));
      Core(w, d') && Advanced(d, d') && Unannounced(d')
  {
    RestartStays(d, d.(state := d.state.(resumeVerified := true)));
  }

  lemma RunFirst(w: World, d: Disk, a: Action, rest: seq<Action>, kill: nat)
    ensures RunScript(w, d, [a] + rest, kill) ==
      var t := Act(w, d, a, kill); if t.end == Stopped then t else RunScript(w, t.disk, rest, t.kill)
  {
    assert ([a] + rest)[1..] == rest;
  }

  /** What a slot's run keeps, and leaves if it finishes; only a generation that ends announces the restart. */
  ghost predicate SlotRan(w: World, d: Disk, key: Key, t: Turn)
  {
    && Core(w, t.disk) && Advanced(d, t.disk)
    && (t.end == Finished ==> Unannounced(t.disk) && Evidence(t.disk.journal, key))
  }

  lemma DockerCore(w: World, d: Disk, same: bool, kill: nat)
    requires ManifestOk(w.m) && Core(w, d) && Unannounced(d)
    ensures var t := RunScript(w, d, DockerScript(d, w.m.faults[DockerHostRestart], same), kill);
      SlotRan(w, d, FaultSlot(DockerHostRestart), t)
  {
    var f, at := DockerHostRestart, w.m.faults[DockerHostRestart];
    if HasId(d.journal, RecoveredId(f)) {
      var r :| 0 <= r < |d.journal| && d.journal[r].id == Some(RecoveredId(f));
      assert RestartProved(d.journal, r);
      var a :| 0 <= a < r && d.journal[a].id == Some(FaultId(f));
      assert HasId(d.journal, FaultId(f));
    } else if !HasId(d.journal, FaultId(f)) {
      AnnounceRuns(w, d, kill);
    } else {
      ResumeRuns(w, d, same, kill);
    }
  }

  lemma AnnounceRuns(w: World, d: Disk, kill: nat)
    requires ManifestOk(w.m) && Core(w, d)
    ensures var t := RunScript(w, d,
      [Emit(FaultId(DockerHostRestart), FaultBegan(DockerHostRestart, w.m.faults[DockerHostRestart])),
                                      AwaitKill], kill);
      Core(w, t.disk) && Advanced(d, t.disk) && t.end == Stopped
  {
    var f, at := DockerHostRestart, w.m.faults[DockerHostRestart];
    AnnounceCore(w, d);
    RunFirst(w, d, Emit(FaultId(f), FaultBegan(f, at)), [AwaitKill], kill);
    assert [Emit(FaultId(f), FaultBegan(f, at)), AwaitKill] == [Emit(FaultId(f), FaultBegan(f, at))] + [AwaitKill];
    if kill > 0 {
      RunFirst(w, Emitted(d, FaultId(f), FaultBegan(f, at)), AwaitKill, [], kill - 1);
      assert [AwaitKill] + [] == [AwaitKill];
    }
  }

  /** Verifying the resume and recording it, unless killed in between. */
  lemma VerifiedRuns(w: World, d: Disk, kill: nat)
    requires Core(w, d) && Unannounced(d) && HasId(d.journal, FaultId(DockerHostRestart))
    requires Finalized(d.journal)
    ensures var t := RunScript(w, d,
      [VerifiedResume] + [Emit(RecoveredId(DockerHostRestart), FaultRecovered(DockerHostRestart))], kill);
      SlotRan(w, d, FaultSlot(DockerHostRestart), t)
  {
    var f := DockerHostRestart;
    var recover := [Emit(RecoveredId(f), FaultRecovered(f))];
    var d' := d.(state := d.state.(resumeVerified := true));
    RunFirst(w, d, VerifiedResume, recover, kill);
    if kill > 0 {
      VerifiedCore(w, d);
      RunFirst(w, d', Emit(RecoveredId(f), FaultRecovered(f)), [], kill - 1);
      assert recover + [] == recover;
      RecoverCore(w, d');
      var d'' := Emitted(d', RecoveredId(f), FaultRecovered(f));
      IdsGrow(d.journal, d''.journal);
    }
  }

  /** A failed check ends the script with nothing written. */
  lemma RequireRuns(w: World, d: Disk, ok: bool, rest: seq<Action>, kill: nat)
    ensures RunScript(w, d, [Require(ok)] + rest, kill) ==
      if kill > 0 && ok then RunScript(w, d, rest, kill - 1) else Turn(d, Stopped, 0)
  {
    RunFirst(w, d, Require(ok), rest, kill);
  }

  lemma ResumeRuns(w: World, d: Disk, same: bool, kill: nat)
    requires Core(w, d) && Unannounced(d) && HasId(d.journal, FaultId(DockerHostRestart))
    ensures var t := RunScript(w, d,
        [Require(d.state.boots >= 2), Require(Finalized(d.journal)),
         Require(same), VerifiedResume, Emit(RecoveredId(DockerHostRestart), FaultRecovered(DockerHostRestart))], kill);
      SlotRan(w, d, FaultSlot(DockerHostRestart), t)
  {
    ChecksRun(w, d, d.state.boots >= 2, Finalized(d.journal), same, kill);
    if kill > 2 && d.state.boots >= 2 && Finalized(d.journal) && same {
      VerifiedRuns(w, d, kill - 3);
    } else {
      StoppedHere(w, d, 0);
    }
  }

  lemma StoppedHere(w: World, d: Disk, kill: nat)
    requires Core(w, d)
    ensures SlotRan(w, d, FaultSlot(DockerHostRestart), Turn(d, Stopped, kill))
  {
  }

  lemma ChecksRun(w: World, d: Disk, p: bool, q: bool, same: bool, kill: nat)
    ensures var f := DockerHostRestart;
      RunScript(w, d, [Require(p), Require(q), Require(same), VerifiedResume, Emit(RecoveredId(f), FaultRecovered(f))],
          kill)
      == if kill > 2 && p && q && same
        then RunScript(w, d, [VerifiedResume] + [Emit(RecoveredId(f), FaultRecovered(f))], kill - 3)
         else Turn(d, Stopped, 0)
  {
    var f := DockerHostRestart;
    var verify := [VerifiedResume] + [Emit(RecoveredId(f), FaultRecovered(f))];
    assert [Require(p), Require(q), Require(same), VerifiedResume, Emit(RecoveredId(f), FaultRecovered(f))]
        == [Require(p)] + ([Require(q)] + ([Require(same)] + verify));
    RequireRuns(w, d, p, [Require(q)] + ([Require(same)] + verify), kill);
    if kill > 0 && p {
      RequireRuns(w, d, q, [Require(same)] + verify, kill - 1);
      if kill > 1 && q {
        RequireRuns(w, d, same, verify, kill - 2);
      }
    }
  }

  // ---- the timeline ----

  /** Any slot of the plan, run to its end or cut short. */
  lemma SlotCore(w: World, d: Disk, slot: Slot, life: Life, kill: nat)
    requires ManifestOk(w.m) && LedgerOk(w.ledger) && SlotFits(w, slot) && Core(w, d) && Unannounced(d)
    ensures var t := RunScript(w, d, Script(w, d, slot, life), kill);
      SlotRan(w, d, slot.key, t)
  {
    if slot.key == FaultSlot(DockerHostRestart) {
      DockerCore(w, d, life.sealedBytesSame, kill);
    } else {
      var script := Script(w, d, slot, life);
      SlotSound(w, d, slot, life);
      RunCore(w, d, script, kill);
      var t := RunScript(w, d, script, kill);
      if t.end == Finished { SlotLeaves(w, d, slot, life, t.disk.journal); }
    }
  }

  lemma TimelineStays(plan: seq<Slot>, d: Disk, d': Disk)
    requires TimelineOk(plan, d) && d.journal <= d'.journal
    requires d'.state.steps == d.state.steps && d'.state.elapsed == d.state.elapsed
    ensures TimelineOk(plan, d')
  {
    forall k | k in d'.state.steps
      ensures Evidence(d'.journal, k)
    {
      EvidenceStays(d.journal, d'.journal, k);
    }
  }

  /** Slots before the i-th are done. */
  ghost predicate DoneBefore(plan: seq<Slot>, d: Disk, i: nat)
    requires i <= |plan|
  {
    forall k :: 0 <= k < i ==> plan[k].key in d.state.steps
  }

  lemma MarkOk(w: World, d: Disk, plan: seq<Slot>, i: nat, second: nat)
    requires Core(w, d) && TimelineOk(plan, d) && i < |plan| && DoneBefore(plan, d, i) && second >= plan[i].second
    requires Evidence(d.journal, plan[i].key) && KeysDistinct(plan)
    ensures var d' := d.(state := Marked(d.state, plan[i].key, second));
      Core(w, d') && TimelineOk(plan, d') && DoneBefore(plan, d', i + 1)
  {
    var d' := d.(state := Marked(d.state, plan[i].key, second));
    RestartStays(d, d');
    forall a, b | 0 <= a < b < |plan| && plan[b].key in d'.state.steps
      ensures plan[a].key in d'.state.steps
    {
      if plan[b].key == plan[i].key { assert b == i; }
    }
  }

  /** What the timeline needs of its plan. */
  ghost predicate PlanOk(m: Manifest, plan: seq<Slot>)
  {
    && ManifestOk(m) && KeysDistinct(plan)
    && forall i :: 0 <= i < |plan| ==> (plan[i].key.FaultSlot? ==> plan[i].second == m.faults[plan[i].key.fault])
  }

  lemma PlanIsOk(m: Manifest)
    requires ManifestOk(m)
    ensures PlanOk(m, Plan(m))
  {
    PlanFacts(m);
    var plan := Plan(m);
    forall i | 0 <= i < |plan|
      ensures plan[i].key.FaultSlot? ==> plan[i].second == m.faults[plan[i].key.fault]
    {
      assert plan[i] in plan;
    }
  }

  /** What a run of the timeline keeps, and that a finished one has done every slot. */
  ghost predicate Ran(w: World, plan: seq<Slot>, d: Disk, t: Turn)
  {
    && Core(w, t.disk) && TimelineOk(plan, t.disk) && d.journal <= t.disk.journal
    && t.disk.state.boots == d.state.boots
    && (t.end == Finished ==> DoneBefore(plan, t.disk, |plan|))
  }

  /** The run of one slot and its mark. */
  function RunSlot(w: World, slot: Slot, d: Disk, life: Life, kill: nat): Turn
  {
    var t := RunScript(w, d, Script(w, d, slot, life), kill);
    if t.end == Stopped then t
    else Act(w, t.disk, MarkDone(slot.key, slot.second + life.delay(slot.key)), t.kill)
  }

  lemma SlotsUnfold(w: World, plan: seq<Slot>, i: nat, d: Disk, life: Life, kill: nat, misses: nat)
    returns (misses': nat)
    requires i < |plan| && plan[i].key !in d.state.steps
    ensures var t := RunSlot(w, plan[i], d, life, kill);
      RunSlots(w, plan, i, d, life, kill, misses).0
      == if t.end == Stopped then t else RunSlots(w, plan, i + 1, t.disk, life, t.kill, misses').0
  {
    misses' := if life.late(plan[i].key) > GRACE_SECONDS then misses + 1 else misses;
  }

  /** One slot that was not done: run, and marked unless the generation ends. */
  lemma SlotDone(w: World, plan: seq<Slot>, i: nat, d: Disk, life: Life, kill: nat)
    requires PlanOk(w.m, plan) && LedgerOk(w.ledger) && i < |plan| && plan[i].key !in d.state.steps
    requires Core(w, d) && Unannounced(d) && TimelineOk(plan, d) && DoneBefore(plan, d, i)
    ensures SlotMarked(w, plan, i, d, RunSlot(w, plan[i], d, life, kill))
  {
    var slot := plan[i];
    SlotCore(w, d, slot, life, kill);
    var t := RunScript(w, d, Script(w, d, slot, life), kill);
    SlotUnfold(w, slot, d, life, kill);
    if t.end == Finished && t.kill > 0 {
      TimelineStays(plan, d, t.disk);
      DoneStays(plan, d, t.disk, i);
      MarkedOk(w, plan, i, d, t.disk, slot.second + life.delay(slot.key), t.kill - 1);
    } else {
      StoppedOk(w, plan, i, d, t);
    }
  }

  lemma SlotUnfold(w: World, slot: Slot, d: Disk, life: Life, kill: nat)
    ensures var t := RunScript(w, d, Script(w, d, slot, life), kill);
      RunSlot(w, slot, d, life, kill)
      == if t.end == Stopped then t
         else if t.kill == 0 then Turn(t.disk, Stopped, 0)
         else Turn(t.disk.(state := Marked(t.disk.state, slot.key, slot.second + life.delay(slot.key))), Finished,
             t.kill - 1)
  {
  }

  ghost predicate SlotMarked(w: World, plan: seq<Slot>, i: nat, d: Disk, t: Turn)
    requires i < |plan|
  {
    && Ran(w, plan, d, t.(end := Stopped))
    && (t.end == Finished ==> Unannounced(t.disk) && DoneBefore(plan, t.disk, i + 1))
  }

  lemma StoppedOk(w: World, plan: seq<Slot>, i: nat, d: Disk, t: Turn)
    requires PlanOk(w.m, plan) && i < |plan| && SlotRan(w, d, plan[i].key, t) && TimelineOk(plan, d)
    ensures SlotMarked(w, plan, i, d, Turn(t.disk, Stopped, t.kill))
  {
    TimelineStays(plan, d, t.disk);
  }

  lemma MarkedOk(w: World, plan: seq<Slot>, i: nat, d: Disk, d': Disk, second: nat, kill: nat)
    requires PlanOk(w.m, plan) && i < |plan| && Core(w, d') && TimelineOk(plan, d') && Unannounced(d')
    requires DoneBefore(plan, d', i) && second >= plan[i].second
    requires Evidence(d'.journal, plan[i].key) && d.journal <= d'.journal && d'.state.boots == d.state.boots
    ensures SlotMarked(w, plan, i, d, Turn(d'.(state := Marked(d'.state, plan[i].key, second)), Finished, kill))
  {
    var d'' := d'.(state := Marked(d'.state, plan[i].key, second));
    MarkOk(w, d', plan, i, second);
    UnannouncedStays(d', d'');
    RanOnly(w, plan, d, d'', kill);
  }

  lemma DoneStays(plan: seq<Slot>, d: Disk, d': Disk, i: nat)
    requires i <= |plan| && DoneBefore(plan, d, i) && Advanced(d, d')
    ensures DoneBefore(plan, d', i)
  {
  }

  lemma RanOnly(w: World, plan: seq<Slot>, d: Disk, d': Disk, kill: nat)
    requires Core(w, d') && TimelineOk(plan, d') && d.journal <= d'.journal
    requires d'.state.boots == d.state.boots
    ensures Ran(w, plan, d, Turn(d', Stopped, kill))
  {
  }

  lemma UnannouncedStays(d: Disk, d': Disk)
    requires Unannounced(d) && d'.journal == d.journal && d'.state.boots == d.state.boots
    ensures Unannounced(d')
  {
  }

  lemma RanThen(w: World, plan: seq<Slot>, d: Disk, d': Disk, t: Turn)
    requires d.journal <= d'.journal && d'.state.boots == d.state.boots && Ran(w, plan, d', t)
    ensures Ran(w, plan, d, t)
  {
  }

  lemma {:induction false} SlotsCore(w: World, plan: seq<Slot>, i: nat, d: Disk, life: Life, kill: nat, misses: nat)
    requires PlanOk(w.m, plan) && LedgerOk(w.ledger) && i <= |plan|
    requires Core(w, d) && Unannounced(d) && TimelineOk(plan, d) && DoneBefore(plan, d, i)
    ensures Ran(w, plan, d, RunSlots(w, plan, i, d, life, kill, misses).0)
    decreases |plan| - i
  {
    if i < |plan| {
      if plan[i].key in d.state.steps {
        SlotsCore(w, plan, i + 1, d, life, kill, misses);
      } else {
        SlotDone(w, plan, i, d, life, kill);
        var t := RunSlot(w, plan[i], d, life, kill);
        var misses' := SlotsUnfold(w, plan, i, d, life, kill, misses);
        if t.end == Stopped {
          assert t.(end := Stopped) == t;
        } else {
          SlotsCore(w, plan, i + 1, t.disk, life, t.kill, misses');
          RanThen(w, plan, d, t.disk, RunSlots(w, plan, i + 1, t.disk, life, t.kill, misses').0);
        }
      }
    }
  }
}
