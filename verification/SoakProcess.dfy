/**
 The soak driver as it runs: the journal and state objects that a worker keeps in memory beside its two
 files, the pacer's loop over the timeline, and the supervisor that respawns workers. Each method is
 proved to leave the files the step functions of SoakDriver describe.
 */
module SoakProcess {
  import opened Bytes
  import opened SoakEvents
  import opened SoakPlan
  import opened SoakDriver
  import opened SoakVerifier
  import opened SoakInvariant
  import opened SoakClosure

  /** What Journal.__init__ accepts. */
  ghost predicate Loadable(j: EventLog)
  {
    Numbered(j) && NothingAfterClosure(j)
  }

  class Worker {
    const world: World

    // durable: the journal file and the state file
    var file: EventLog
    var saved: State

    // volatile: lost when the worker is killed
    var events: EventLog
    var eventIds: set<EventId>
    var closed: bool
    var value: State
    var deadlineMisses: nat

    // how many more durable actions this worker lives for
    var left: nat

    ghost predicate Valid()
      reads this
    {
      && events == file && value == saved
      && (forall id :: id in eventIds <==> HasId(file, id))
      && (closed <==> IsClosed(file))
    }

    function Files(): Disk
      reads this
    {
      Disk(file, saved)
    }

    /** A new worker finds only the two files. */
    constructor (world: World, files: Disk, left: nat)
      ensures this.world == world && Files() == files && this.left == left
      ensures events == [] && eventIds == {} && !closed && value == files.state && deadlineMisses == 0
    {
      this.world := world;
      this.file, this.saved := files.journal, files.state;
      this.events, this.eventIds, this.closed, this.value := [], {}, false, files.state;
      this.deadlineMisses := 0;
      this.left := left;
    }

    /** Journal.__init__: refuses lines after a closure and gaps in the numbering. */
    method Load() returns (ok: bool)
      requires events == [] && eventIds == {} && !closed && value == saved
      modifies this`events, this`eventIds, this`closed
      ensures ok <==> Loadable(file)
      ensures ok ==> Valid()
    {
      var i := 0;
      while i < |file|
        invariant 0 <= i <= |file| && events == file[..i]
        invariant closed <==> IsClosed(file[..i])
        invariant NothingAfterClosure(file[..i])
        invariant forall id :: id in eventIds <==> HasId(file[..i], id)
      {
        assert file[..i + 1] == file[..i] + [file[i]];
        if closed {
          ClosedInside(file, i);
          return false;
        }
        IdsOneMore(file[..i], file[i]);
        ClosedOneMore(file[..i], file[i]);
        events := events + [file[i]];
        if file[i].body.Closed? { closed := true; }
        if file[i].id.Some? { eventIds := eventIds + {file[i].id.value}; }
        i := i + 1;
      }
      assert file[..i] == file;
      i := 0;
      while i < |events|
        invariant 0 <= i <= |events|
        invariant forall k :: 0 <= k < i ==> events[k].seqNo == k + 1
      {
        if events[i].seqNo != i + 1 { return false; }
        i := i + 1;
      }
      ok := true;
    }

    /** emit_once on an open journal; the line is durable before memory knows it. */
    method EmitOnce(id: EventId, body: Body)
      requires Valid() && !closed && !body.Closed?
      modifies this`file, this`events, this`eventIds
      ensures Valid() && !closed && Files() == Emitted(old(Files()), id, body)
    {
      if id !in eventIds {
        var event := Event(|events| + 1, Some(id), body, value.boots);
        IdsOneMore(file, event);
        ClosedOneMore(file, event);
        file := file + [event];
        events := events + [event];
        eventIds := eventIds + {id};
      }
    }

    /** Journal.close: the closure hashes everything before it. */
    method Close(durationSeconds: nat)
      requires Valid() && !closed
      modifies this`file, this`events, this`closed
      ensures Valid() && closed && Files() == Closing(world, old(Files()), durationSeconds)
    {
      var event := ClosureEvent(world, events, durationSeconds, value.boots);
      IdsOneMore(file, event);
      ClosedOneMore(file, event);
      file := file + [event];
      events := events + [event];
      closed := true;
    }

    /** DriverState.save. */
    method Save(next: State)
      requires Valid()
      modifies this`value, this`saved
      ensures Valid() && Files() == old(Files()).(state := next)
    {
      value := next;
      saved := value;
    }

    /** emit_charges: one line per new entry, then the cursor, then the expected count. */
    method EmitCharges(step: Step, from: nat, until: nat, expected: Option<nat>) returns (end: End)
      requires Valid() && !closed
      modifies this
      ensures Valid() && !closed && deadlineMisses == old(deadlineMisses)
      ensures Turn(Files(), end, left)
        == SoakDriver.EmitCharges(world, old(Files()), step, from, until, expected, old(left))
    {
      if !PageAt(world.ledger, from, until, value.cursor) {
        left := 0;
        return Stopped;
      }
      var entries := world.ledger[from..until];
      ghost var whole := EmitEntries(Files(), entries, step, left);
      var i := 0;
      while i < |entries|
        invariant 0 <= i <= |entries| && Valid() && !closed && deadlineMisses == old(deadlineMisses)
        invariant saved == old(saved)
        invariant EmitEntries(Files(), entries[i..], step, left) == whole
      {
        if left == 0 { return Stopped; }
        var e := entries[i];
        left := left - 1;
        EmitOnce(ChargeId(e.chargeId), Charge(e.chargeId, e.usageUnits, e.chargeWei, step));
        assert entries[i..][1..] == entries[i + 1..];
        i := i + 1;
      }
      if from < until {
        if left == 0 { return Stopped; }
        left := left - 1;
        Save(value.(cursor := world.ledger[until - 1].entryId));
      }
      if expected.Some? && StepCharges(events, step) != expected.value {
        left := 0;
        return Stopped;
      }
      end := Finished;
    }

    /** One durable action, unless the kill comes first. */
    method Perform(a: Action) returns (end: End)
      requires Valid() && !closed && (a.Emit? ==> !a.body.Closed?)
      modifies this
      ensures Valid() && (closed ==> a.Close?) && deadlineMisses == old(deadlineMisses)
      ensures Turn(Files(), end, left) == Act(world, old(Files()), a, old(left))
    {
      if left == 0 { return Stopped; }
      left := left - 1;
      end := Finished;
      match a {
        case Require(ok) =>
          if !ok { left := 0; end := Stopped; }
        case Emit(id, body) => EmitOnce(id, body);
        case Charges(step, from, until, expected) => end := EmitCharges(step, from, until, expected);
        case Reconciles(visible) =>
          if !DistinctCharges(events) || !AgreesWithLedger(world, events, visible) {
            left := 0;
            end := Stopped;
          } else {
            EmitOnce(ReconcileId, Reconcile(Usage(events), Wei(events)));
          }
        case VerifiedResume => Save(value.(resumeVerified := true));
        case MarkDone(key, second) => Save(Marked(value, key, second));
        case AssertExpected(visible) =>
          if !Expected(world, Files(), visible) { left := 0; end := Stopped; }
        case Close(duration) => Close(duration);
        case AwaitKill => left := 0; end := Stopped;
      }
    }

    /** The actions of a slot in order, until one fails or the kill comes. */
    method Run(script: seq<Action>) returns (end: End)
      requires Valid() && !closed && OpenScript(script)
      modifies this
      ensures Valid() && (end == Finished && NeverCloses(script) ==> !closed) && deadlineMisses == old(deadlineMisses)
      ensures Turn(Files(), end, left) == RunScript(world, old(Files()), script, old(left))
    {
      var i := 0;
      while i < |script|
        invariant 0 <= i <= |script| && Valid() && deadlineMisses == old(deadlineMisses)
        invariant closed ==> i == |script| && !NeverCloses(script)
        invariant RunScript(world, Files(), script[i..], left) == RunScript(world, old(Files()), script, old(left))
      {
        assert script[i..][0] == script[i] && script[i..][1..] == script[i + 1..];
        end := Perform(script[i]);
        if end == Stopped { return; }
        i := i + 1;
      }
      end := Finished;
    }

    /** A slot that is not done: its actions, then its mark. */
    method RunOne(slot: Slot, life: Life) returns (end: End)
      requires Valid() && !closed
      modifies this
      ensures Valid() && (end == Finished ==> !closed) && deadlineMisses == old(deadlineMisses)
      ensures Turn(Files(), end, left) == RunSlot(world, slot, old(Files()), life, old(left))
    {
      var script := Script(world, Files(), slot, life);
      SlotScriptOpen(world, Files(), slot, life);
      end := Run(script);
      if end == Finished {
        end := Perform(MarkDone(slot.key, slot.second + life.delay(slot.key)));
      }
    }

    /** Pacer.run: slots that are done are skipped; late ones are counted and still run. */
    method RunTimeline(plan: seq<Slot>, life: Life) returns (end: End)
      requires Valid() && !closed && deadlineMisses == 0
      modifies this
      ensures Valid() && (end == Finished ==> !closed)
      ensures (Turn(Files(), end, left), deadlineMisses) == RunSlots(world, plan, 0, old(Files()), life, old(left), 0)
    {
      ghost var whole := RunSlots(world, plan, 0, Files(), life, left, 0);
      var i := 0;
      while i < |plan|
        invariant 0 <= i <= |plan| && Valid() && !closed
        invariant RunSlots(world, plan, i, Files(), life, left, deadlineMisses) == whole
      {
        var slot := plan[i];
        if slot.key in value.steps {
          SkipUnfold(world, plan, i, Files(), life, left, deadlineMisses);
        } else {
          TimelineUnfold(world, plan, i, Files(), life, left, deadlineMisses);
          if life.late(slot.key) > GRACE_SECONDS { deadlineMisses := deadlineMisses + 1; }
          end := RunOne(slot, life);
          if end == Stopped { return; }
        }
        i := i + 1;
      }
      end := Finished;
    }

    /** A booted worker: timeline, expectations, closure. */
    method Continue(life: Life)
      requires Valid() && !closed && deadlineMisses == 0 && ManifestOk(world.m)
      modifies this
      ensures Files() == Continued(world, old(Files()), life, old(left))
    {
      var end := RunTimeline(Plan(world.m), life);
      if end == Finished {
        ClosingScriptOpen(world, life, deadlineMisses);
        end := Run(ClosingScript(world, life, deadlineMisses));
      }
    }

    /** The boot is counted before anything is done. */
    method Boot()
      requires Valid() && !closed && left > 0
      modifies this`value, this`saved, this`left
      ensures Valid() && Files() == Rebooted(old(Files())) && left == old(left) - 1
    {
      left := left - 1;
      Save(value.(boots := value.boots + 1));
    }

    /** run_worker: nothing for a closed journal; else a boot, and the rest of the soak. */
    method Work(life: Life)
      requires events == [] && eventIds == {} && !closed && value == saved && deadlineMisses == 0 && left == life.kill
      requires ManifestOk(world.m) && Loadable(file)
      modifies this
      ensures Files() == RunWorker(world, old(Files()), life)
    {
      var ok := Load();
      if !closed && left > 0 {
        Boot();
        Continue(life);
      }
    }
  }

  // ---- the step functions, one step at a time ----

  lemma SkipUnfold(w: World, plan: seq<Slot>, i: nat, d: Disk, life: Life, kill: nat, misses: nat)
    requires i < |plan| && plan[i].key in d.state.steps
    ensures RunSlots(w, plan, i, d, life, kill, misses) == RunSlots(w, plan, i + 1, d, life, kill, misses)
  {
  }

  lemma TimelineUnfold(w: World, plan: seq<Slot>, i: nat, d: Disk, life: Life, kill: nat, misses: nat)
    requires i < |plan| && plan[i].key !in d.state.steps
    ensures var misses' := if life.late(plan[i].key) > GRACE_SECONDS then misses + 1 else misses;
      var t := RunSlot(w, plan[i], d, life, kill);
      RunSlots(w, plan, i, d, life, kill, misses)
      == if t.end == Stopped then (t, misses') else RunSlots(w, plan, i + 1, t.disk, life, t.kill, misses')
  {
  }

  /** The supervisor: worker after worker over the same two files, until the schedule of kills ends. */
  method Supervise(world: World, lives: seq<Life>) returns (files: Disk)
    requires ManifestOk(world.m) && LedgerOk(world.ledger)
    ensures files == RunLives(world, FRESH, lives)
    ensures Inv(world, files)
    ensures IsClosed(files.journal) ==> Accepts(world.m, world.h, files.journal)
  {
    files := FRESH;
    FreshOpen(world);
    var i := 0;
    while i < |lives|
      invariant 0 <= i <= |lives| && Reachable(world, files)
      invariant RunLives(world, files, lives[i..]) == RunLives(world, FRESH, lives)
    {
      assert lives[i..][0] == lives[i] && lives[i..][1..] == lives[i + 1..];
      WorkerKeeps(world, files, lives[i]);
      ReachableLoads(world, files);
      var worker := new Worker(world, files, lives[i].kill);
      worker.Work(lives[i]);
      files := worker.Files();
      i := i + 1;
    }
    EveryRun(world, lives);
  }

  // ---- one more line ----

  lemma IdsOneMore(j: EventLog, e: Event)
    ensures forall id :: HasId(j + [e], id) <==> HasId(j, id) || e.id == Some(id)
  {
    var j' := j + [e];
    forall id
      ensures HasId(j', id) <==> HasId(j, id) || e.id == Some(id)
    {
      if HasId(j, id) { IdsGrow(j, j'); }
      if e.id == Some(id) { assert j'[|j|].id == Some(id); }
    }
  }

  /** A closure among the first lines, and a line after it. */
  lemma ClosedInside(j: EventLog, i: nat)
    requires i < |j| && IsClosed(j[..i])
    ensures !NothingAfterClosure(j)
  {
    var k :| 0 <= k < i && j[..i][k].body.Closed?;
    assert j[k].body.Closed?;
  }

  lemma ReachableLoads(w: World, d: Disk)
    requires ManifestOk(w.m) && Reachable(w, d)
    ensures Loadable(d.journal)
  {
    if !Open(w, d) {
      var before :| ClosedFrom(w, before, d);
      ClosedKeeps(w, before, d);
    }
  }

  // ---- scripts of an open journal ----

  /** Only the last action may close, and no emitted line is a closure. */
  ghost predicate OpenScript(script: seq<Action>)
  {
    && (forall i :: 0 <= i < |script| - 1 ==> !script[i].Close?)
    && (forall i :: 0 <= i < |script| && script[i].Emit? ==> !script[i].body.Closed?)
  }

  ghost predicate NeverCloses(script: seq<Action>)
  {
    forall i :: 0 <= i < |script| ==> !script[i].Close?
  }

  ghost predicate Quiet(script: seq<Action>)
  {
    forall a :: a in script ==> !a.Close? && (a.Emit? ==> !a.body.Closed?)
  }

  lemma QuietIsOpen(script: seq<Action>)
    requires Quiet(script)
    ensures OpenScript(script) && NeverCloses(script)
  {
    forall i | 0 <= i < |script|
      ensures !script[i].Close? && (script[i].Emit? ==> !script[i].body.Closed?)
    {
      assert script[i] in script;
    }
  }

  lemma {:induction false} RoomsQuiet(rooms: seq<string>)
    ensures Quiet(CreateRooms(rooms))
  {
    if rooms != [] { RoomsQuiet(rooms[1..]); }
  }

  lemma {:induction false} AdmitQuiet(room: string, admissions: seq<Admission>)
    ensures Quiet(Admit(room, admissions))
  {
    if admissions != [] { AdmitQuiet(room, admissions[1..]); }
  }

  lemma {:induction false} MembersQuiet(w: World, i: nat, a: AggregateAnswers, count: nat)
    requires count <= 8
    ensures Quiet(MemberScripts(w, i, a, count))
  {
    if count > 0 {
      var room, m := AGGREGATE_ROOMS[count - 1], a.members(count - 1);
      MembersQuiet(w, i, a, count - 1);
      AdmitQuiet(room, m.admissions);
      QuietThen(MemberScripts(w, i, a, count - 1), Admit(room, m.admissions));
      QuietThen(MemberScripts(w, i, a, count - 1) + Admit(room, m.admissions),
                ProveAndVerify(w, Member(i, count - 1), room, m.jobs));
    }
  }

  lemma {:induction false} BlobsQuiet(i: nat, a: AggregateAnswers, count: nat)
    requires count <= 6
    ensures Quiet(BlobScripts(i, a, count))
  {
    if count > 0 { BlobsQuiet(i, a, count - 1); }
  }

  lemma QuietThen(a: seq<Action>, b: seq<Action>)
    requires Quiet(a) && Quiet(b)
    ensures Quiet(a + b)
  {
  }

  lemma PulseQuiet(w: World, i: nat, a: PulseAnswers)
    ensures Quiet(PulseScript(w, i, a))
  {
    AdmitQuiet(PULSE_ROOM, a.admissions);
    assert Quiet(ProveAndVerify(w, Pulse(i), PULSE_ROOM, a.jobs));
    assert Quiet(BroadcastOf(a.operation));
  }

  lemma AggregateQuiet(w: World, i: nat, a: AggregateAnswers)
    ensures Quiet(AggregateScript(w, i, a))
  {
    var s1, s2 := MemberScripts(w, i, a, 8), BroadcastOf(a.stale);
    var s3 := [Charges(Stale(i), a.stalePage.from, a.stalePage.until, Some(1))];
    var s4, s5 := BlobScripts(i, a, 6), AggregateProof(w, i, a);
    MembersQuiet(w, i, a, 8);
    BlobsQuiet(i, a, 6);
    QuietThen(s1, s2);
    QuietThen(s1 + s2, s3);
    QuietThen(s1 + s2 + s3, s4);
    QuietThen(s1 + s2 + s3 + s4, s5);
    QuietThen(s1 + s2 + s3 + s4 + s5, BroadcastOf(a.operation));
    QuietThen(s1 + s2 + s3 + s4 + s5 + BroadcastOf(a.operation), AggregateSettle(w, i, a));
  }

  lemma SponsorQuiet(a: SponsorAnswers)
    ensures Quiet(SponsorScript(a))
  {
  }

  lemma WithdrawQuiet(a: WithdrawAnswers)
    ensures Quiet(WithdrawScript(a))
  {
  }

  lemma FaultQuiet(d: Disk, f: Fault, at: nat, life: Life)
    ensures Quiet(FaultScript(d, f, at, life))
  {
  }

  lemma SlotQuiet(w: World, d: Disk, slot: Slot, life: Life)
    ensures Quiet(Script(w, d, slot, life))
  {
    match slot.key
    case SetupSlot => RoomsQuiet([PULSE_ROOM] + AGGREGATE_ROOMS);
    case PulseSlot(i) => PulseQuiet(w, i, life.pulses(i));
    case AggregateSlot(i) => AggregateQuiet(w, i, life.aggregates(i));
    case SponsorSlot => SponsorQuiet(life.sponsor);
    case WithdrawSlot => WithdrawQuiet(life.withdraw);
    case FaultSlot(f) => FaultQuiet(d, f, slot.second, life);
    case ReconcileSlot =>
  }

  lemma SlotScriptOpen(w: World, d: Disk, slot: Slot, life: Life)
    ensures OpenScript(Script(w, d, slot, life)) && NeverCloses(Script(w, d, slot, life))
  {
    SlotQuiet(w, d, slot, life);
    QuietIsOpen(Script(w, d, slot, life));
  }

  lemma ClosingScriptOpen(w: World, life: Life, misses: nat)
    ensures OpenScript(ClosingScript(w, life, misses))
  {
  }
}
