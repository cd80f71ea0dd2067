/**
 Two soaks that show what the closure does not: one whose first generation broke the deadline budget and
 that closes all the same, and one that has journaled more charges than a page of the ledger and never can.
 */
module SoakWitness {
  import opened Bytes
  import opened SoakEvents
  import opened SoakPlan
  import opened SoakDriver
  import opened SoakInvariant
  import opened SoakClosure
  import opened SoakCharges
  import opened SoakBudgets
  import opened SoakHonest
  import opened Text

  // ---- a late generation, and a closure ----

  /** The setup, the first pulse and an aggregate stand before the restart. */
  lemma ThreeBeforeRestart(m: Manifest, i: nat)
    requires ManifestOk(m) && DockerAt(Plan(m), i)
    ensures i >= 3
  {
    TimelineShape(m);
    var n :| Precedes(Plan(m), AggregateSlot(n), FaultSlot(DockerHostRestart));
    var a := StandsBefore(Plan(m), AggregateSlot(n), i);
    var p := StandsBefore(Plan(m), PulseSlot(0), i);
    assert Plan(m)[0].key == SetupSlot;
  }

  lemma StandsBefore(plan: seq<Slot>, k: Key, i: nat) returns (j: nat)
    requires KeysDistinct(plan) && i < |plan| && Docker(plan[i].key) && Precedes(plan, k, FaultSlot(DockerHostRestart))
    ensures j < i && plan[j].key == k
  {
    var a, b :| 0 <= a < b < |plan| && plan[a].key == k && plan[b].key == FaultSlot(DockerHostRestart);
    j := a;
  }

  /** A generation that starts every slot more than the grace period late. */
  function Slowed(life: Life): Life
  {
    life.(late := k => GRACE_SECONDS + 1)
  }

  lemma SlowedSlots(w: World, plan: seq<Slot>, d: Disk, life: Life, kill: nat)
    ensures RunSlots(w, plan, 0, d, Slowed(life), kill, 0).0 == RunSlots(w, plan, 0, d, life, kill, 0).0
  {
    var late: Key -> nat := k => GRACE_SECONDS + 1;
    LateRuns(w, plan, 0, d, life, late, kill, 0, 0);
    assert Slowed(life) == life.(late := late);
  }

  lemma SlowedMisses(w: World, plan: seq<Slot>, i: nat, life: Life, kill: nat, t: Turn)
    requires PlanOk(w.m, plan) && i <= |plan| && DoneBefore(plan, t.disk, i)
    requires RunSlots(w, plan, 0, Rebooted(FRESH), Slowed(life), kill, 0).0 == t
    ensures RunSlots(w, plan, 0, Rebooted(FRESH), Slowed(life), kill, 0).1 >= i
  {
    AllMissed(w, plan, 0, i, Rebooted(FRESH), Slowed(life), kill, 0,
              RunSlots(w, plan, 0, Rebooted(FRESH), Slowed(life), kill, 0));
  }

  lemma StoppedWorker(w: World, plan: seq<Slot>, d: Disk, life: Life)
    requires ManifestOk(w.m) && plan == Plan(w.m) && !IsClosed(d.journal) && life.kill > 0
    requires RunSlots(w, plan, 0, Rebooted(d), life, life.kill - 1, 0).0.end == Stopped
    ensures RunWorker(w, d, life) == RunSlots(w, plan, 0, Rebooted(d), life, life.kill - 1, 0).0.disk
  {
  }

  /** What such a generation leaves is the same. */
  lemma SlowedLeaves(w: World, plan: seq<Slot>, life: Life, t: Turn)
    requires ManifestOk(w.m) && plan == Plan(w.m) && life.kill > 0
    requires RunSlots(w, plan, 0, Rebooted(FRESH), life, life.kill - 1, 0).0 == t && t.end == Stopped
    ensures RunSlots(w, plan, 0, Rebooted(FRESH), Slowed(life), life.kill - 1, 0).0 == t
    ensures RunWorker(w, FRESH, Slowed(life)) == t.disk
  {
    SlowedSlots(w, plan, Rebooted(FRESH), life, life.kill - 1);
    StoppedWorker(w, plan, FRESH, Slowed(life));
  }

  lemma SlowedFirst(w: World, plan: seq<Slot>, i: nat, life: Life)
    requires ManifestOk(w.m) && plan == Plan(w.m) && KilledAtRestart(w, plan, i, life)
    ensures RunWorker(w, FRESH, Slowed(life)) == RunWorker(w, FRESH, life)
    ensures RunSlots(w, plan, 0, Rebooted(FRESH), Slowed(life), life.kill - 1, 0).1 >= i
  {
    var t := Turn(RunWorker(w, FRESH, life), Stopped, 0);
    SlowedLeaves(w, plan, life, t);
    PlanIsOk(w.m);
    SlowedMisses(w, plan, i, life, life.kill - 1, t);
  }

  /**
   A closure says nothing of the generations before the one that wrote it: with a deadline budget of two
   misses, a first generation that is late for every slot, three of them at least, is followed by one that
   closes the soak.
   */
  lemma SlowSoakCloses(w: World) returns (first: Life, second: Life)
    requires ManifestOk(w.m) && w.ledger == UnitLedger(ChargeTotal(w.m)) && Hex64(w.digest(JOBS.prove))
    requires w.m.expectedUsage == ChargeTotal(w.m) && w.m.expectedWei == ChargeTotal(w.m) && w.m.maxDeadlineMisses <= 2
    ensures first.kill > 0
    ensures RunSlots(w, Plan(w.m), 0, Rebooted(FRESH), first, first.kill - 1, 0).1 > w.m.maxDeadlineMisses
    ensures IsClosed(RunWorker(w, RunWorker(w, FRESH, first), second).journal)
  {
    var life, next, i := HonestSoakCloses(w);
    SlowedFirst(w, Plan(w.m), i, life);
    ThreeBeforeRestart(w.m, i);
    first, second := Slowed(life), next;
  }

  // ---- a soak with more charges than a page ----

  lemma PulseIsSecond(m: Manifest)
    requires ManifestOk(m)
    ensures |Plan(m)| > 1 && Plan(m)[0].key == SetupSlot && Plan(m)[1].key == PulseSlot(0)
  {
    PlanFacts(m);
    SetupFirst(m);
    var plan := Plan(m);
    var k := plan[1].key;
    assert plan[1] in plan;
    if k != PulseSlot(0) {
      assert k != SetupSlot;
      LaterThanPulse(m, k);
      EarlierPrecedes(m, PulseSlot(0), k);
    }
  }

  lemma LaterThanPulse(m: Manifest, k: Key)
    requires ManifestOk(m) && Planned(k) && k != SetupSlot && k != PulseSlot(0)
    ensures var t := Timing(m, k); t.0 > 0 || (t.0 == 0 && t.1 > 1)
  {
    if k.PulseSlot? { Positive(k.index, Interval(m.durationSeconds)); }
  }

  lemma Positive(a: nat, b: nat)
    requires a > 0 && b > 0
    ensures a * b > 0
  {
  }

  lemma {:induction false} PlainRuns(w: World, d: Disk, script: seq<Action>, kill: nat)
    requires Plain(script) && kill >= |script|
    ensures var t := RunScript(w, d, script, kill);
      t.end == Finished && t.kill == kill - |script| && t.disk.state == d.state
    decreases |script|
  {
    if script != [] {
      assert script[0] in script && forall a :: a in script[1..] ==> a in script;
      PlainRuns(w, Act(w, d, script[0], kill).disk, script[1..], kill - 1);
    }
  }

  lemma {:induction false} RunBoth(w: World, d: Disk, a: seq<Action>, b: seq<Action>, kill: nat)
    ensures RunScript(w, d, a + b, kill)
         == var t := RunScript(w, d, a, kill); if t.end == Stopped then t else RunScript(w, t.disk, b, t.kill)
    decreases |a|
  {
    if a == [] {
      assert a + b == b;
    } else {
      assert a + b == [a[0]] + (a[1..] + b) && a == [a[0]] + a[1..];
      RunFirst(w, d, a[0], a[1..] + b, kill);
      RunFirst(w, d, a[0], a[1..], kill);
      var t := Act(w, d, a[0], kill);
      if t.end == Finished { RunBoth(w, t.disk, a[1..], b, t.kill); }
    }
  }

  lemma {:induction false} EntriesFinish(d: Disk, entries: seq<Entry>, step: Step, kill: nat)
    requires kill >= |entries|
    ensures var t := EmitEntries(d, entries, step, kill);
      t.end == Finished && t.kill == kill - |entries| && t.disk.state == d.state
    decreases |entries|
  {
    if entries != [] {
      var e := entries[0];
      EntriesFinish(Entered(d, e, step), entries[1..], step, kill - 1);
    }
  }

  lemma UnitPage(l: Ledger, from: nat, until: nat)
    requires Units(l) && from < until <= |l| && until - from <= PAGE_LIMIT
    ensures PageAt(l, from, until, from) && l[until - 1].entryId == until && |l[from..until]| == until - from
  {
  }

  /** The entries are journaled, the cursor is saved, and the life is over. */
  lemma SavedAndDead(w: World, d: Disk, step: Step, from: nat, until: nat, expected: Option<nat>, t: Turn)
    requires PageAt(w.ledger, from, until, d.state.cursor) && from < until && w.ledger[until - 1].entryId == until
    requires t == EmitEntries(d, w.ledger[from..until], step, until - from + 1)
    requires t.end == Finished && t.kill == 1 && t.disk.state == d.state
    ensures var e := EmitCharges(w, d, step, from, until, expected, until - from + 1);
      e.kill == 0 && e.disk.state == d.state.(cursor := until)
  {
  }

  /** A worker that lives just long enough to save the cursor. */
  lemma CursorAndDie(w: World, d: Disk, step: Step, from: nat, until: nat, expected: Option<nat>)
    requires Units(w.ledger) && from < until <= |w.ledger| && until - from <= PAGE_LIMIT
    requires d.state.cursor == from
    ensures var t := Act(w, d, Charges(step, from, until, expected), until - from + 2);
      t.kill == 0 && t.disk.state == d.state.(cursor := until)
  {
    UnitPage(w.ledger, from, until);
    EntriesFinish(d, w.ledger[from..until], step, until - from + 1);
    SavedAndDead(w, d, step, from, until, expected, EmitEntries(d, w.ledger[from..until], step, until - from + 1));
  }

  /** The actions of a pulse up to its charges. */
  ghost function PulseWork(w: World): seq<Action>
  {
    [Emit(LeaseId(Pulse(0)), Lease(PULSE_ROOM))] + ProveAndVerify(w, Pulse(0), PULSE_ROOM, JOBS) + BroadcastOf(OP)
    + [Emit(FinalizeId(Pulse(0)), Finalize(JOBS.prove, w.digest(JOBS.prove)))]
  }

  lemma PulseWorkPlain(w: World)
    requires Hex64(w.digest(JOBS.prove))
    ensures Plain(PulseWork(w))
  {
    ProvePlain(w, Pulse(0), PULSE_ROOM);
    BroadcastPlain();
  }

  /** A generation whose first pulse is charged for whole pages of the ledger. */
  ghost function PagedLife(plan: seq<Slot>, from: nat, until: nat, kill: nat): Life
  {
    HonestLife(plan, 0).(pulses := (i: nat) => HonestPulse(from).(page := Page(from, until)), kill := kill)
  }

  lemma PagedScript(w: World, plan: seq<Slot>, d: Disk, from: nat, until: nat, kill: nat, slot: Slot)
    requires slot.key == PulseSlot(0)
    ensures Script(w, d, slot, PagedLife(plan, from, until, kill))
      == PulseWork(w) + [Charges(Pulse(0), from, until, Some(1))]
  {
  }

  lemma WorkAndDie(w: World, d: Disk, from: nat, until: nat)
    requires w.ledger == UnitLedger(|w.ledger|) && from < until <= |w.ledger| && until - from <= PAGE_LIMIT
    requires d.state.cursor == from && Hex64(w.digest(JOBS.prove))
    ensures var t := RunScript(w, d, PulseWork(w) + [Charges(Pulse(0), from, until, Some(1))],
                               |PulseWork(w)| + (until - from + 2));
      t.kill == 0 && t.disk.state == d.state.(cursor := until)
  {
    var left, charge := until - from + 2, Charges(Pulse(0), from, until, Some(1));
    PulseWorkPlain(w);
    PlainRuns(w, d, PulseWork(w), |PulseWork(w)| + left);
    RunBoth(w, d, PulseWork(w), [charge], |PulseWork(w)| + left);
    var t := RunScript(w, d, PulseWork(w), |PulseWork(w)| + left);
    LedgerUnits(w.ledger);
    CursorAndDie(w, t.disk, Pulse(0), from, until, Some(1));
    RunFirst(w, t.disk, charge, [], left);
    assert [charge] + [] == [charge];
  }

  lemma DeadSlot(w: World, slot: Slot, d: Disk, life: Life, kill: nat, script: seq<Action>, until: nat)
    requires Script(w, d, slot, life) == script && RunScript(w, d, script, kill).kill == 0
    requires RunScript(w, d, script, kill).disk.state == d.state.(cursor := until)
    ensures CursorSaved(RunSlot(w, slot, d, life, kill), d, until)
  {
    SlotUnfold(w, slot, d, life, kill);
  }

  ghost predicate CursorSaved(t: Turn, d: Disk, until: nat)
  {
    t.end == Stopped && t.disk.state == d.state.(cursor := until)
  }

  /** The first pulse, cut as soon as the cursor is saved. */
  lemma PulseAndDie(w: World, d: Disk, from: nat, until: nat, slot: Slot, life: Life, kill: nat, script: seq<Action>)
    requires w.ledger == UnitLedger(|w.ledger|) && from < until <= |w.ledger| && until - from <= PAGE_LIMIT
    requires d.state.cursor == from && Hex64(w.digest(JOBS.prove))
    requires script == PulseWork(w) + [Charges(Pulse(0), from, until, Some(1))]
    requires Script(w, d, slot, life) == script && kill == |PulseWork(w)| + (until - from + 2)
    ensures CursorSaved(RunSlot(w, slot, d, life, kill), d, until)
  {
    WorkAndDie(w, d, from, until);
    DeadSlot(w, slot, d, life, kill, script, until);
  }

  /** That is how a generation ends whose next slot is the first pulse. */
  lemma PageAndDie(w: World, plan: seq<Slot>, d: Disk, from: nat, until: nat, life: Life, kill: nat, misses: nat)
    requires w.ledger == UnitLedger(|w.ledger|) && from < until <= |w.ledger| && until - from <= PAGE_LIMIT
    requires d.state.cursor == from && Hex64(w.digest(JOBS.prove))
    requires |plan| > 1 && plan[1].key == PulseSlot(0) && PulseSlot(0) !in d.state.steps
    requires life == PagedLife(plan, from, until, life.kill) && kill == |PulseWork(w)| + (until - from + 2)
    ensures CursorSaved(RunSlots(w, plan, 1, d, life, kill, misses).0, d, until)
  {
    var script := PulseWork(w) + [Charges(Pulse(0), from, until, Some(1))];
    PagedScript(w, plan, d, from, until, life.kill, plan[1]);
    PulseAndDie(w, d, from, until, plan[1], life, kill, script);
    CountSlot(w, plan, 1, d, life, kill, misses);
  }

  /** A first slot that only says things is done and marked. */
  lemma PlainSlot(w: World, plan: seq<Slot>, d: Disk, life: Life, kill: nat, script: seq<Action>) returns (d': Disk)
    requires plan != [] && plan[0].key !in d.state.steps && kill > |script|
    requires Script(w, d, plan[0], life) == script && Plain(script)
    ensures d'.state == Marked(d.state, plan[0].key, plan[0].second + life.delay(plan[0].key))
    ensures RunSlots(w, plan, 0, d, life, kill, 0).0
         == RunSlots(w, plan, 1, d', life, kill - |script| - 1, Missed(plan[0], life)).0
  {
    d' := PlainTurn(w, plan[0], d, life, kill, script);
    CountSlot(w, plan, 0, d, life, kill, 0);
  }

  lemma PlainTurn(w: World, slot: Slot, d: Disk, life: Life, kill: nat, script: seq<Action>) returns (d': Disk)
    requires kill > |script| && Script(w, d, slot, life) == script && Plain(script)
    ensures d'.state == Marked(d.state, slot.key, slot.second + life.delay(slot.key))
    ensures RunSlot(w, slot, d, life, kill) == Turn(d', Finished, kill - |script| - 1)
  {
    PlainRuns(w, d, script, kill);
    SlotUnfold(w, slot, d, life, kill);
    d' := RunSlot(w, slot, d, life, kill).disk;
  }

  lemma SetupScript(w: World, slot: Slot, d: Disk, life: Life) returns (script: seq<Action>)
    requires slot.key == SetupSlot
    ensures script == CreateRooms([PULSE_ROOM] + AGGREGATE_ROOMS) == Script(w, d, slot, life) && Plain(script)
  {
    RoomsPlain([PULSE_ROOM] + AGGREGATE_ROOMS);
    script := CreateRooms([PULSE_ROOM] + AGGREGATE_ROOMS);
  }

  /** The setup, and then a page of charges in the first pulse. */
  lemma SetupAndPage(w: World, plan: seq<Slot>, life: Life, rooms: seq<Action>, kill: nat)
    requires w.ledger == UnitLedger(|w.ledger|) && |w.ledger| > PAGE_LIMIT && Hex64(w.digest(JOBS.prove))
    requires |plan| > 1 && plan[0].key == SetupSlot && plan[1].key == PulseSlot(0)
    requires Script(w, Rebooted(FRESH), plan[0], life) == rooms && Plain(rooms)
    requires life == PagedLife(plan, 0, PAGE_LIMIT, kill)
    ensures var left := |PulseWork(w)| + (PAGE_LIMIT + 2);
      var t := RunSlots(w, plan, 0, Rebooted(FRESH), life, |rooms| + 1 + left, 0).0;
      t.end == Stopped && PageCharged(t.disk.state)
  {
    var left := |PulseWork(w)| + (PAGE_LIMIT + 2);
    var d := PlainSlot(w, plan, Rebooted(FRESH), life, |rooms| + 1 + left, rooms);
    PageAndDie(w, plan, d, 0, PAGE_LIMIT, life, left, Missed(plan[0], life));
  }

  /** A page is charged, in a pulse that is not done. */
  ghost predicate PageCharged(s: State)
  {
    s.cursor == PAGE_LIMIT && SetupSlot in s.steps && PulseSlot(0) !in s.steps
  }

  lemma FirstPage(w: World, plan: seq<Slot>) returns (first: Life)
    requires ManifestOk(w.m) && plan == Plan(w.m) && w.ledger == UnitLedger(|w.ledger|) && |w.ledger| > PAGE_LIMIT
    requires Hex64(w.digest(JOBS.prove))
    ensures PageCharged(RunWorker(w, FRESH, first).state)
    ensures first.kill > 0 && RunSlots(w, plan, 0, Rebooted(FRESH), first, first.kill - 1, 0).0.end == Stopped
  {
    PulseIsSecond(w.m);
    var rooms := SetupScript(w, plan[0], Rebooted(FRESH), PagedLife(plan, 0, PAGE_LIMIT, 0));
    var kill := |rooms| + 1 + (|PulseWork(w)| + (PAGE_LIMIT + 2)) + 1;
    first := PagedLife(plan, 0, PAGE_LIMIT, kill);
    SetupAndPage(w, plan, first, rooms, kill);
    StoppedWorker(w, plan, FRESH, first);
  }

  /** The second one: one charge more. */
  lemma OneMore(w: World, d: Disk) returns (second: Life)
    requires ManifestOk(w.m) && w.ledger == UnitLedger(|w.ledger|) && |w.ledger| > PAGE_LIMIT
    requires Hex64(w.digest(JOBS.prove)) && !IsClosed(d.journal)
    requires PageCharged(d.state)
    ensures RunWorker(w, d, second).state.cursor == PAGE_LIMIT + 1
  {
    var plan, left := Plan(w.m), |PulseWork(w)| + 3;
    second := PagedLife(plan, PAGE_LIMIT, PAGE_LIMIT + 1, left + 1);
    PulseIsSecond(w.m);
    PageAndDie(w, plan, Rebooted(d), PAGE_LIMIT, PAGE_LIMIT + 1, second, left, 0);
  }

  lemma FirstStaysOpen(w: World, first: Life)
    requires ManifestOk(w.m) && LedgerOk(w.ledger) && first.kill > 0
    requires RunSlots(w, Plan(w.m), 0, Rebooted(FRESH), first, first.kill - 1, 0).0.end == Stopped
    ensures !IsClosed(RunWorker(w, FRESH, first).journal)
  {
    FreshOpen(w);
    GenerationCloses(w, FRESH, first);
  }

  lemma CursorIsCharged(w: World, lives: seq<Life>)
    requires ManifestOk(w.m) && LedgerOk(w.ledger) && |w.ledger| > PAGE_LIMIT
    requires w.ledger[PAGE_LIMIT].entryId <= RunLives(w, FRESH, lives).state.cursor
    ensures HasCharge(RunLives(w, FRESH, lives).journal, w.ledger[PAGE_LIMIT].chargeId)
  {
    ChargesConserved(w, lives);
  }

  lemma TwoPages(w: World) returns (lives: seq<Life>)
    requires ManifestOk(w.m) && w.ledger == UnitLedger(|w.ledger|) && |w.ledger| > PAGE_LIMIT
    requires Hex64(w.digest(JOBS.prove)) && LedgerOk(w.ledger)
    ensures RunLives(w, FRESH, lives).state.cursor == PAGE_LIMIT + 1
  {
    var first := FirstPage(w, Plan(w.m));
    FirstStaysOpen(w, first);
    var second := OneMore(w, RunWorker(w, FRESH, first));
    lives := [first] + ([second] + []);
    TwoLives(w, FRESH, first, second);
  }

  /** Two generations journal the 501st charge of any ledger that has one, and the soak stays open for good. */
  lemma OverfullSoak(w: World) returns (lives: seq<Life>)
    requires ManifestOk(w.m) && w.ledger == UnitLedger(|w.ledger|) && |w.ledger| > PAGE_LIMIT
    requires Hex64(w.digest(JOBS.prove))
    ensures LedgerOk(w.ledger) && HasCharge(RunLives(w, FRESH, lives).journal, w.ledger[PAGE_LIMIT].chargeId)
    ensures forall more :: !IsClosed(RunLives(w, FRESH, lives + more).journal)
  {
    UnitLedgerOk(|w.ledger|);
    UnitLedgerFacts(|w.ledger|);
    lives := TwoPages(w);
    CursorIsCharged(w, lives);
    forall more
      ensures !IsClosed(RunLives(w, FRESH, lives + more).journal)
    {
      NeverCloses(w, lives, more);
    }
  }
}
