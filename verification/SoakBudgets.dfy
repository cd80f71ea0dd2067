/**
 The wait and deadline budgets are kept in memory: which generation they are about, and what a generation
 needs to write the closure.
 */
module SoakBudgets {
  import opened SoakEvents
  import opened SoakPlan
  import opened SoakDriver
  import opened SoakInvariant
  import opened SoakClosure

  /** The slots from the i-th on that a generation with these steps done has to run and starts late. */
  function LateSlots(plan: seq<Slot>, i: nat, steps: map<Key, nat>, life: Life): nat
    requires i <= |plan|
    decreases |plan| - i
  {
    if i == |plan| then 0
    else
      (if plan[i].key !in steps && life.late(plan[i].key) > 300 then 1 else 0)
      + LateSlots(plan, i + 1, steps, life)
  }

  lemma {:induction false} LateApart(plan: seq<Slot>, i: nat, j: nat, steps: map<Key, nat>, second: nat, life: Life)
    requires KeysDistinct(plan) && j < i <= |plan|
    ensures LateSlots(plan, i, steps[plan[j].key := second], life) == LateSlots(plan, i, steps, life)
    decreases |plan| - i
  {
    if i < |plan| { LateApart(plan, i + 1, j, steps, second, life); }
  }

  lemma EntriesSteps(d: Disk, entries: seq<Entry>, step: Step, kill: nat)
    ensures EmitEntries(d, entries, step, kill).disk.state == d.state
    decreases |entries|
  {
    if entries != [] && kill > 0 {
      var e := entries[0];
      EntriesSteps(Emitted(d, ChargeId(e.chargeId), Charge(e.chargeId, e.usageUnits, e.chargeWei, step)),
                   entries[1..], step, kill - 1);
    }
  }

  lemma ActSteps(w: World, d: Disk, a: Action, kill: nat)
    requires !a.MarkDone?
    ensures Act(w, d, a, kill).disk.state.steps == d.state.steps
  {
    if a.Charges? && kill > 0 && PageAt(w.ledger, a.from, a.until, d.state.cursor) {
      EntriesSteps(d, w.ledger[a.from..a.until], a.step, kill - 1);
    }
  }

  /** A workload script marks nothing. */
  lemma {:induction false} ScriptSteps(w: World, d: Disk, script: seq<Action>, kill: nat)
    requires Sound(w, script)
    ensures RunScript(w, d, script, kill).disk.state.steps == d.state.steps
    decreases |script|
  {
    if script != [] {
      ActSteps(w, d, script[0], kill);
      var t := Act(w, d, script[0], kill);
      if t.end == Finished { ScriptSteps(w, t.disk, script[1..], t.kill); }
    }
  }

  /** Nor does the script of the restart. */
  lemma {:induction false} UnmarkedSteps(w: World, d: Disk, script: seq<Action>, kill: nat)
    requires forall i :: 0 <= i < |script| ==> !script[i].MarkDone?
    ensures RunScript(w, d, script, kill).disk.state.steps == d.state.steps
    decreases |script|
  {
    if script != [] {
      ActSteps(w, d, script[0], kill);
      var t := Act(w, d, script[0], kill);
      if t.end == Finished { UnmarkedSteps(w, t.disk, script[1..], t.kill); }
    }
  }

  /** Of the steps, a slot changes its own only, and only when it finishes. */
  lemma SlotSteps(w: World, slot: Slot, d: Disk, life: Life, kill: nat)
    requires ManifestOk(w.m) && SlotFits(w, slot)
    ensures var t := RunSlot(w, slot, d, life, kill);
      t.disk.state.steps
      == if t.end == Stopped then d.state.steps else d.state.steps[slot.key := slot.second + life.delay(slot.key)]
  {
    var script := Script(w, d, slot, life);
    if slot.key == FaultSlot(DockerHostRestart) {
      UnmarkedSteps(w, d, script, kill);
    } else {
      SlotSound(w, d, slot, life);
      ScriptSteps(w, d, script, kill);
    }
    SlotUnfold(w, slot, d, life, kill);
  }

  function Missed(slot: Slot, life: Life): nat
  {
    if life.late(slot.key) > GRACE_SECONDS then 1 else 0
  }

  lemma CountSlot(w: World, plan: seq<Slot>, i: nat, d: Disk, life: Life, kill: nat, misses: nat)
    requires i < |plan| && plan[i].key !in d.state.steps
    ensures var t := RunSlot(w, plan[i], d, life, kill);
      RunSlots(w, plan, i, d, life, kill, misses)
      == if t.end == Stopped then (t, misses + Missed(plan[i], life))
         else RunSlots(w, plan, i + 1, t.disk, life, t.kill, misses + Missed(plan[i], life))
  {
  }

  /** A finished timeline has counted exactly the slots that this generation started late. */
  lemma {:induction false} MissesAreLate(w: World, plan: seq<Slot>, i: nat, d: Disk, life: Life, kill: nat, misses: nat)
    requires PlanOk(w.m, plan) && i <= |plan|
    ensures var (t, counted) := RunSlots(w, plan, i, d, life, kill, misses);
      t.end == Finished ==> counted == misses + LateSlots(plan, i, d.state.steps, life)
    decreases |plan| - i
  {
    if i < |plan| {
      if plan[i].key in d.state.steps {
        MissesAreLate(w, plan, i + 1, d, life, kill, misses);
      } else {
        var t := RunSlot(w, plan[i], d, life, kill);
        CountSlot(w, plan, i, d, life, kill, misses);
        if t.end == Finished {
          SlotSteps(w, plan[i], d, life, kill);
          MissesAreLate(w, plan, i + 1, t.disk, life, t.kill, misses + Missed(plan[i], life));
          LateApart(plan, i + 1, i, d.state.steps, plan[i].second + life.delay(plan[i].key), life);
        }
      }
    }
  }

  /**
   A booted generation closes: it lives through its timeline and five actions more, the expected results
   hold, and its own wait and its own late slots are within the budgets.
   */
  ghost predicate WithinBudgets(w: World, d: Disk, life: Life)
    requires ManifestOk(w.m)
  {
    && life.kill > 0
    && var t := RunSlots(w, Plan(w.m), 0, Rebooted(d), life, life.kill - 1, 0).0;
       t.end == Finished && t.kill >= 5 && MayClose(w, t.disk, life, LateSlots(Plan(w.m), 0, d.state.steps, life))
  }

  /** From any state of any run, the next generation closes the soak if and only if that is so. */
  lemma GenerationCloses(w: World, d: Disk, life: Life)
    requires ManifestOk(w.m) && LedgerOk(w.ledger) && Reachable(w, d) && !IsClosed(d.journal)
    ensures IsClosed(RunWorker(w, d, life).journal) <==> WithinBudgets(w, d, life)
  {
    if life.kill > 0 {
      var booted := Rebooted(d);
      var (t, misses) := RunSlots(w, Plan(w.m), 0, booted, life, life.kill - 1, 0);
      RunStaysOpen(w, d, life, life.kill - 1);
      PlanIsOk(w.m);
      MissesAreLate(w, Plan(w.m), 0, booted, life, life.kill - 1, 0);
      if t.end == Finished { FinishedCloses(w, t.disk, life, misses, t.kill); }
    }
  }

  /** Before the closing actions, nothing closes the journal. */
  lemma RunStaysOpen(w: World, d: Disk, life: Life, kill: nat)
    requires ManifestOk(w.m) && LedgerOk(w.ledger) && Reachable(w, d) && !IsClosed(d.journal)
    ensures !IsClosed(RunSlots(w, Plan(w.m), 0, Rebooted(d), life, kill, 0).0.disk.journal)
  {
    ClosedMeans(w, d);
    BootOpen(w, d);
    TimelineReaches(w, Rebooted(d), life, kill);
  }

  lemma FinishedCloses(w: World, d: Disk, life: Life, misses: nat, kill: nat)
    requires !IsClosed(d.journal)
    ensures IsClosed(RunScript(w, d, ClosingScript(w, life, misses), kill).disk.journal)
       <==> MayClose(w, d, life, misses) && kill >= 5
  {
    ClosesExactly(w, d, life, misses, kill);
    var closing := Closing(w, d, w.m.durationSeconds + life.finalDelay);
    assert closing.journal[|d.journal|].body.Closed?;
  }

  // ---- what lateness does not change ----

  /** However late the slots start, the files become the same. */
  lemma {:induction false} LateRuns(w: World, plan: seq<Slot>, i: nat, d: Disk, life: Life, late: Key -> nat, kill: nat,
                                    misses: nat, misses': nat)
    requires i <= |plan|
    ensures RunSlots(w, plan, i, d, life.(late := late), kill, misses').0
      == RunSlots(w, plan, i, d, life, kill, misses).0
    decreases |plan| - i
  {
    if i < |plan| {
      var other := life.(late := late);
      if plan[i].key in d.state.steps {
        LateRuns(w, plan, i + 1, d, life, late, kill, misses, misses');
      } else {
        var t := RunSlot(w, plan[i], d, life, kill);
        LateSlot(w, plan[i], d, life, late, kill);
        CountSlot(w, plan, i, d, life, kill, misses);
        CountSlot(w, plan, i, d, other, kill, misses');
        LateRuns(w, plan, i + 1, t.disk, life, late, t.kill, misses + Missed(plan[i], life),
            misses' + Missed(plan[i], other));
      }
    }
  }

  lemma LateSlot(w: World, slot: Slot, d: Disk, life: Life, late: Key -> nat, kill: nat)
    ensures RunSlot(w, slot, d, life.(late := late), kill) == RunSlot(w, slot, d, life, kill)
  {
  }

  /** None of the slots from the i-th on is done, and each is started late. */
  ghost predicate AllToDo(w: World, plan: seq<Slot>, i: nat, steps: map<Key, nat>, life: Life)
  {
    && PlanOk(w.m, plan)
    && (forall k :: i <= k < |plan| ==> plan[k].key !in steps)
    && forall key :: life.late(key) > GRACE_SECONDS
  }

  ghost predicate FirstDone(plan: seq<Slot>, j: nat, steps: map<Key, nat>)
  {
    j <= |plan| && forall k :: 0 <= k < j ==> plan[k].key in steps
  }

  /** A generation that starts every slot late misses at least as many deadlines as it finishes slots. */
  lemma {:induction false} AllMissed(w: World, plan: seq<Slot>, i: nat, j: nat, d: Disk, life: Life, kill: nat,
      misses: nat, out: (Turn, nat))
    requires AllToDo(w, plan, i, d.state.steps, life) && FirstDone(plan, j, out.0.disk.state.steps) && i <= j
    requires out == RunSlots(w, plan, i, d, life, kill, misses)
    ensures out.1 >= misses + (j - i)
    decreases |plan| - i
  {
    if i < j {
      var t := RunSlot(w, plan[i], d, life, kill);
      StepsAfter(w, plan, i, d, life, kill, t);
      LateTurn(w, plan, i, d, life, kill, misses, t, out);
      if t.end == Finished {
        AllMissed(w, plan, i + 1, j, t.disk, life, t.kill, misses + 1, out);
      } else {
        NotDone(plan, i, j, t.disk.state.steps);
      }
    } else {
      MissesGrow(w, plan, i, d, life, kill, misses);
    }
  }

  lemma NotDone(plan: seq<Slot>, i: nat, j: nat, steps: map<Key, nat>)
    requires i < j && FirstDone(plan, j, steps)
    ensures plan[i].key in steps
  {
  }

  /** A slot that stops is not done, and one that finishes leaves the later ones to do. */
  lemma StepsAfter(w: World, plan: seq<Slot>, i: nat, d: Disk, life: Life, kill: nat, t: Turn)
    requires i < |plan| && t == RunSlot(w, plan[i], d, life, kill) && AllToDo(w, plan, i, d.state.steps, life)
    ensures plan[i].key !in d.state.steps && life.late(plan[i].key) > GRACE_SECONDS
    ensures t.end == Stopped ==> plan[i].key !in t.disk.state.steps
    ensures t.end == Finished ==> AllToDo(w, plan, i + 1, t.disk.state.steps, life)
  {
    SlotSteps(w, plan[i], d, life, kill);
    OthersToDo(plan, i, d.state.steps, plan[i].second + life.delay(plan[i].key));
  }

  lemma OthersToDo(plan: seq<Slot>, i: nat, steps: map<Key, nat>, second: nat)
    requires KeysDistinct(plan) && i < |plan| && forall k :: i <= k < |plan| ==> plan[k].key !in steps
    ensures forall k :: i < k < |plan| ==> plan[k].key !in steps[plan[i].key := second]
  {
  }

  /** One late slot. */
  lemma LateTurn(w: World, plan: seq<Slot>, i: nat, d: Disk, life: Life, kill: nat, misses: nat, t: Turn,
      out: (Turn, nat))
    requires i < |plan| && plan[i].key !in d.state.steps && life.late(plan[i].key) > GRACE_SECONDS
    requires t == RunSlot(w, plan[i], d, life, kill) && out == RunSlots(w, plan, i, d, life, kill, misses)
    ensures if t.end == Stopped then out == (t, misses + 1)
            else out == RunSlots(w, plan, i + 1, t.disk, life, t.kill, misses + 1)
  {
    CountSlot(w, plan, i, d, life, kill, misses);
  }

  lemma {:induction false} MissesGrow(w: World, plan: seq<Slot>, i: nat, d: Disk, life: Life, kill: nat, misses: nat)
    requires i <= |plan|
    ensures RunSlots(w, plan, i, d, life, kill, misses).1 >= misses
    decreases |plan| - i
  {
    if i < |plan| {
      if plan[i].key in d.state.steps {
        MissesGrow(w, plan, i + 1, d, life, kill, misses);
      } else {
        var t := RunSlot(w, plan[i], d, life, kill);
        CountSlot(w, plan, i, d, life, kill, misses);
        if t.end == Finished { MissesGrow(w, plan, i + 1, t.disk, life, t.kill, misses + Missed(plan[i], life)); }
      }
    }
  }
}
