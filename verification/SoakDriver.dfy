/**
 The crash-resume soak driver of owner-soak-driver/zkdeal_owner_soak.py as it acts on its two durable
 files. A worker generation runs the timeline as a list of durable actions; it can be killed before any
 of them. An exception ends a generation the same way, since nothing volatile survives.
 */
module SoakDriver {
  import opened Bytes
  import opened SoakEvents
  import opened SoakPlan
  import opened Text

  // ---- the durable files and the world around them ----

  datatype Entry = Entry(entryId: nat, chargeId: string, usageUnits: nat, chargeWei: nat)

  /** The billing ledger: append-only, numbered from one in entryId order, with distinct charges. */
  type Ledger = seq<Entry>

  ghost predicate LedgerOk(l: Ledger)
  {
    && (forall i :: 0 <= i < |l| ==> l[i].entryId > 0)
    && (forall i, j :: 0 <= i < j < |l| ==> l[i].entryId < l[j].entryId)
    && (forall i, j :: 0 <= i < j < |l| ==> l[i].chargeId != l[j].chargeId)
  }

  datatype State = State(steps: map<Key, nat>, elapsed: nat, cursor: nat, resumeVerified: bool, boots: nat)

  datatype Disk = Disk(journal: EventLog, state: State)

  const FRESH := Disk([], State(map[], 0, 0, false, 0))

  /** What does not change during a soak. A job's result digest is a function of the job. */
  datatype World = World(m: Manifest, h: Hashes, ledger: Ledger, digest: string -> string)

  const PAGE_LIMIT: nat := 500

  // ---- actions ----

  datatype Action =
    | Require(ok: bool)
    | Emit(id: EventId, body: Body)
    | Charges(step: Step, from: nat, until: nat, expected: Option<nat>)
    | Reconciles(visible: nat)
    | VerifiedResume
    | MarkDone(key: Key, second: nat)
    | AssertExpected(visible: nat)
    | Close(durationSeconds: nat)
    | AwaitKill

  datatype End = Finished | Stopped

  /** kill counts the actions left before the worker is killed. */
  datatype Turn = Turn(disk: Disk, end: End, kill: nat)

  function Emitted(d: Disk, id: EventId, body: Body): Disk
  {
    d.(journal := EmitOnce(d.journal, id, body, d.state.boots))
  }

  /** mark_done: the slot is recorded and the elapsed position never moves back. */
  function Marked(s: State, key: Key, second: nat): State
  {
    s.(steps := s.steps[key := second], elapsed := if second > s.elapsed then second else s.elapsed)
  }

  /** The ledger request answers with entries from..until: a prefix of those after the cursor. */
  predicate PageAt(l: Ledger, from: nat, until: nat, cursor: nat)
  {
    && from <= until <= |l| && until - from <= PAGE_LIMIT
    && (forall i :: 0 <= i < from ==> l[i].entryId <= cursor)
    && (forall i :: from <= i < until ==> l[i].entryId > cursor)
  }

  /** One durable line per new entry. */
  function EmitEntries(d: Disk, entries: seq<Entry>, step: Step, kill: nat): Turn
    decreases |entries|
  {
    if entries == [] then Turn(d, Finished, kill)
    else if kill == 0 then Turn(d, Stopped, 0)
    else
      var e := entries[0];
      EmitEntries(Emitted(d, ChargeId(e.chargeId), Charge(e.chargeId, e.usageUnits, e.chargeWei, step)),
                  entries[1..], step, kill - 1)
  }

  /** emit_charges: the lines, then the cursor, then the expected count of this step's lines. */
  function EmitCharges(w: World, d: Disk, step: Step, from: nat, until: nat, expected: Option<nat>, kill: nat): Turn
  {
    if !PageAt(w.ledger, from, until, d.state.cursor) then Turn(d, Stopped, 0)
    else
      var t := EmitEntries(d, w.ledger[from..until], step, kill);
      if t.end == Stopped || (from < until && t.kill == 0) then Turn(t.disk, Stopped, 0)
      else
        var d' := if from < until then t.disk.(state := t.disk.state.(cursor := w.ledger[until - 1].entryId))
            else t.disk;
        if expected.Some? && StepCharges(d'.journal, step) != expected.value then Turn(d', Stopped, 0)
        else Turn(d', Finished, if from < until then t.kill - 1 else t.kill)
  }

  /** ledger_entries(0): one request, which answers with at most one page of what is visible. */
  function FirstPage(l: Ledger, visible: nat): Ledger
  {
    var n := if visible <= |l| then visible else |l|;
    if n <= PAGE_LIMIT then l[..n] else l[..PAGE_LIMIT]
  }

  /** The charge ids of the journal are those of a page. */
  predicate SameIds(j: EventLog, page: Ledger)
  {
    && (forall k :: 0 <= k < |page| ==> HasCharge(j, page[k].chargeId))
    && (forall i :: 0 <= i < |j| && j[i].body.Charge? ==> Lists(page, j[i].body.chargeId))
  }

  predicate Lists(page: Ledger, charge: string)
  {
    exists k :: 0 <= k < |page| && page[k].chargeId == charge
  }

  /** The journal's charges against the first page of the whole ledger. */
  predicate AgreesWithLedger(w: World, j: EventLog, visible: nat)
  {
    var page := FirstPage(w.ledger, visible);
    SameIds(j, page) && LedgerUsage(page) == Usage(j) && LedgerWei(page) == Wei(j)
  }

  predicate HasCharge(j: EventLog, charge: string)
  {
    exists i :: 0 <= i < |j| && j[i].body.Charge? && j[i].body.chargeId == charge
  }

  function LedgerUsage(l: Ledger): nat
  {
    if l == [] then 0 else LedgerUsage(l[..|l| - 1]) + l[|l| - 1].usageUnits
  }

  function LedgerWei(l: Ledger): nat
  {
    if l == [] then 0 else LedgerWei(l[..|l| - 1]) + l[|l| - 1].chargeWei
  }

  /** assert_expected, up to the two answers that come from elsewhere. */
  predicate Expected(w: World, d: Disk, visible: nat)
  {
    && DistinctNonces(d.journal) && DistinctCharges(d.journal)
    && AgreesWithLedger(w, d.journal, visible)
    && Usage(d.journal) == w.m.expectedUsage && Wei(d.journal) == w.m.expectedWei
    && d.state.resumeVerified
  }

  function ClosureEvent(w: World, j: EventLog, durationSeconds: nat, generation: nat): Event
  {
    Event(|j| + 1, None,
          Closed(w.h.manifest, w.h.events(Lines(j)), durationSeconds, true, true, 0, 0, 0, 0, true, true),
          generation)
  }

  function Act(w: World, d: Disk, a: Action, kill: nat): Turn
  {
    if kill == 0 then Turn(d, Stopped, 0)
    else match a
      case Require(ok) => if ok then Turn(d, Finished, kill - 1) else Turn(d, Stopped, 0)
      case Emit(id, body) => Turn(Emitted(d, id, body), Finished, kill - 1)
      case Charges(step, from, until, expected) => EmitCharges(w, d, step, from, until, expected, kill - 1)
      case Reconciles(visible) =>
        if !DistinctCharges(d.journal) || !AgreesWithLedger(w, d.journal, visible) then Turn(d, Stopped, 0)
        else Turn(Emitted(d, ReconcileId, Reconcile(Usage(d.journal), Wei(d.journal))), Finished, kill - 1)
      case VerifiedResume => Turn(d.(state := d.state.(resumeVerified := true)), Finished, kill - 1)
      case MarkDone(key, second) =>
        Turn(d.(state := Marked(d.state, key, second)), Finished, kill - 1)
      case AssertExpected(visible) =>
        if Expected(w, d, visible) then Turn(d, Finished, kill - 1) else Turn(d, Stopped, 0)
      case Close(duration) =>
        Turn(d.(journal := d.journal + [ClosureEvent(w, d.journal, duration, d.state.boots)]), Finished, kill - 1)
      case AwaitKill => Turn(d, Stopped, 0)
  }

  function RunScript(w: World, d: Disk, script: seq<Action>, kill: nat): Turn
    decreases |script|
  {
    if script == [] then Turn(d, Finished, kill)
    else
      var t := Act(w, d, script[0], kill);
      if t.end == Stopped then t else RunScript(w, t.disk, script[1..], t.kill)
  }

  // ---- what the services answer during one generation ----

  datatype Operation = Operation(id: string, nonceId: string, txHash: string)
  datatype Admission = Admission(id: string, txHash: string, cursor: nat)
  datatype Jobs = Jobs(prepare: string, prove: string, verify: string, cursor: nat)
  datatype Page = Page(from: nat, until: nat)

  datatype PulseAnswers = PulseAnswers(admissions: seq<Admission>, jobs: Jobs, operation: Operation, page: Page)

  datatype MemberAnswers = MemberAnswers(admissions: seq<Admission>, jobs: Jobs)

  datatype AggregateAnswers = AggregateAnswers(
    members: nat -> MemberAnswers, stale: Operation, stalePage: Page, blobJobs: nat -> string, prove: string,
    operation: Operation, selector: string, transactionType: int, boundMembers: int, boundBlobs: int,
    applied: int, failed: int, page: Page)

  datatype SponsorAnswers = SponsorAnswers(
    reserve: Operation, renew: Operation, checkpoint: Operation, dispose: Operation, selectors: Selectors,
    payer: string, beneficiary: string, refundRecipient: string, split: bool, page: Page)

  datatype WithdrawAnswers = WithdrawAnswers(
    operation: Operation, selector: string, replayRejected: bool, page: Page)

  datatype Life = Life(
    pulses: nat -> PulseAnswers, aggregates: nat -> AggregateAnswers, sponsor: SponsorAnswers,
    withdraw: WithdrawAnswers, reconcilePage: Page, reconcileVisible: nat, sealedBytesSame: bool,
    delay: Key -> nat, late: Key -> nat, finalVisible: nat, finalDelay: nat, safetyEvents: nat, maxWaitMs: nat,
    kill: nat)

  // ---- the steps of the workload, as the code orders them ----

  const PULSE_ROOM := "101"
  const AGGREGATE_ROOMS := ["201", "202", "203", "204", "205", "206", "207", "208"]

  function CreateRooms(rooms: seq<string>): seq<Action>
  {
    if rooms == [] then []
    else [Emit(RoomCreateId(rooms[0]), RoomCreate(rooms[0]))] + CreateRooms(rooms[1..])
  }

  function Admit(room: string, admissions: seq<Admission>): seq<Action>
  {
    if admissions == [] then []
    else
      var a := admissions[0];
      [Emit(SubmitAdmissionId(room, a.id), Submit(room, None, Some(a.txHash), a.cursor))] + Admit(room, admissions[1..])
  }

  function BroadcastOf(o: Operation): seq<Action>
  {
    [Require(o.id != "" && o.nonceId != "" && o.txHash != ""),
     Emit(BroadcastId(o.id), Broadcast(o.nonceId, o.txHash, OWNER, o.id))]
  }

  function ProveAndVerify(w: World, step: Step, room: string, jobs: Jobs): seq<Action>
  {
    [Require(jobs.prepare != ""),
     Emit(SubmitId(step), Submit(room, Some(jobs.prepare), None, jobs.cursor)),
     Emit(LivePrepareId(step), LivePrepare(LIVE_STATE, BATCH_INPUT, false, jobs.prepare)),
     Require(jobs.prove != "" && Hex64(w.digest(jobs.prove))),
     Emit(ProveId(step), Prove(jobs.prove, w.digest(jobs.prove), true, GROTH16)),
     Emit(VerifyId(step), Verify(true))]
  }

  function PulseScript(w: World, i: nat, a: PulseAnswers): seq<Action>
  {
    var step := Pulse(i);
    Admit(PULSE_ROOM, a.admissions)
    + [Emit(LeaseId(step), Lease(PULSE_ROOM))]
    + ProveAndVerify(w, step, PULSE_ROOM, a.jobs)
    + BroadcastOf(a.operation)
    + [Emit(FinalizeId(step), Finalize(a.jobs.prove, w.digest(a.jobs.prove))),
       Charges(step, a.page.from, a.page.until, Some(1))]
  }

  function MemberScripts(w: World, i: nat, a: AggregateAnswers, count: nat): seq<Action>
    requires count <= 8
  {
    if count == 0 then []
    else
      var room := AGGREGATE_ROOMS[count - 1];
      MemberScripts(w, i, a, count - 1)
      + Admit(room, a.members(count - 1).admissions)
      + ProveAndVerify(w, Member(i, count - 1), room, a.members(count - 1).jobs)
  }

  function BlobScripts(i: nat, a: AggregateAnswers, count: nat): seq<Action>
    requires count <= 6
  {
    if count == 0 then []
    else
      BlobScripts(i, a, count - 1)
      + [Require(a.blobJobs(count - 1) != ""),
         Emit(BlobId(Aggregate(i), count - 1), BlobArchive(AGGREGATE_ROOMS[count - 1], a.blobJobs(count - 1)))]
  }

  /** The aggregate's own proof, and the checks on its transaction and on what it binds. */
  function AggregateProof(w: World, i: nat, a: AggregateAnswers): seq<Action>
  {
    [Require(a.prove != "" && Hex64(w.digest(a.prove))),
     Emit(ProveId(Aggregate(i)), Prove(a.prove, w.digest(a.prove), true, GROTH16)),
     Emit(VerifyId(Aggregate(i)), Verify(true)),
     Require(a.selector == AGGREGATE_SELECTOR && a.transactionType == 3),
     Require(a.boundMembers == 8 && a.boundBlobs == 6)]
  }

  /** The event's charge counts: seven lines were just asserted. */
  function AggregateSettlement(a: AggregateAnswers): Body
  {
    Settle(a.boundMembers, a.boundBlobs, a.applied, a.failed, 7, 7 - a.applied, OWNER,
           a.operation.id, AGGREGATE_SELECTOR, 3, true, false)
  }

  function AggregateSettle(w: World, i: nat, a: AggregateAnswers): seq<Action>
  {
    [Require(a.applied == 7 && a.failed == 1),
     Charges(Aggregate(i), a.page.from, a.page.until, Some(7)),
     Emit(SettleId(Aggregate(i)), AggregateSettlement(a)),
     Emit(FinalizeId(Aggregate(i)), Finalize(a.prove, w.digest(a.prove)))]
  }

  function AggregateScript(w: World, i: nat, a: AggregateAnswers): seq<Action>
  {
    MemberScripts(w, i, a, 8)
    + BroadcastOf(a.stale)
    + [Charges(Stale(i), a.stalePage.from, a.stalePage.until, Some(1))]
    + BlobScripts(i, a, 6)
    + AggregateProof(w, i, a)
    + BroadcastOf(a.operation)
    + AggregateSettle(w, i, a)
  }

  function SponsorResult(a: SponsorAnswers): seq<Action>
  {
    [Require(a.payer != "" && a.payer != a.beneficiary && a.refundRecipient == a.payer && a.split),
     Charges(Sponsorship, a.page.from, a.page.until, Some(1)),
     Emit(SponsorId, Sponsor(a.payer, a.beneficiary, a.refundRecipient, false, OWNER, true,
                             Selectors(a.reserve.id, a.renew.id, a.checkpoint.id, a.dispose.id),
                             SPONSOR_SELECTORS, true))]
  }

  function SponsorScript(a: SponsorAnswers): seq<Action>
  {
    [Require(a.selectors == SPONSOR_SELECTORS)]
    + BroadcastOf(a.reserve) + BroadcastOf(a.renew) + BroadcastOf(a.checkpoint) + BroadcastOf(a.dispose)
    + SponsorResult(a)
  }

  function WithdrawResult(a: WithdrawAnswers): seq<Action>
  {
    [Require(a.replayRejected),
     Charges(Withdrawal, a.page.from, a.page.until, Some(1)),
     Emit(WithdrawId, Withdraw(true, true, true, OWNER, a.operation.id, WITHDRAWAL_SELECTOR, true))]
  }

  function WithdrawScript(a: WithdrawAnswers): seq<Action>
  {
    [Require(a.selector == WITHDRAWAL_SELECTOR)] + BroadcastOf(a.operation) + WithdrawResult(a)
  }

  predicate Finalized(j: EventLog)
  {
    exists i :: 0 <= i < |j| && j[i].body.Finalize?
  }

  /** The docker-host fault: announce it and wait to be killed; a later generation verifies the resume. */
  function DockerScript(d: Disk, at: nat, sealedBytesSame: bool): seq<Action>
  {
    var f := DockerHostRestart;
    if HasId(d.journal, RecoveredId(f)) then []
    else if !HasId(d.journal, FaultId(f)) then [Emit(FaultId(f), FaultBegan(f, at)), AwaitKill]
    else
      [Require(d.state.boots >= 2),
       Require(Finalized(d.journal)),
       Require(sealedBytesSame),
       VerifiedResume,
       Emit(RecoveredId(f), FaultRecovered(f))]
  }

  function FaultScript(d: Disk, f: Fault, at: nat, life: Life): seq<Action>
  {
    match f
    case DockerHostRestart => DockerScript(d, at, life.sealedBytesSame)
    case IndexerRollback =>
      [Emit(FaultId(f), FaultBegan(f, at)), Emit(ReorgId, Reorg(true, true, false, false)),
       Emit(RecoveredId(f), FaultRecovered(f))]
    case _ => [Emit(FaultId(f), FaultBegan(f, at)), Emit(RecoveredId(f), FaultRecovered(f))]
  }

  function Script(w: World, d: Disk, slot: Slot, life: Life): seq<Action>
  {
    match slot.key
    case SetupSlot => CreateRooms([PULSE_ROOM] + AGGREGATE_ROOMS)
    case PulseSlot(i) => PulseScript(w, i, life.pulses(i))
    case AggregateSlot(i) => AggregateScript(w, i, life.aggregates(i))
    case SponsorSlot => SponsorScript(life.sponsor)
    case WithdrawSlot => WithdrawScript(life.withdraw)
    case FaultSlot(f) => FaultScript(d, f, slot.second, life)
    case ReconcileSlot =>
      [Charges(Reconciliation, life.reconcilePage.from, life.reconcilePage.until, None),
       Reconciles(life.reconcileVisible)]
  }

  // ---- a generation, and generations ----

  /** A new generation counts itself in the state file first. */
  function Rebooted(d: Disk): Disk
  {
    d.(state := d.state.(boots := d.state.boots + 1))
  }

  const GRACE_SECONDS: nat := 300

  /** Pacer.run from slot i on; also returns this generation's deadline misses. */
  function RunSlots(w: World, plan: seq<Slot>, i: nat, d: Disk, life: Life, kill: nat, misses: nat): (Turn, nat)
    requires i <= |plan|
    decreases |plan| - i
  {
    if i == |plan| then (Turn(d, Finished, kill), misses)
    else
      var slot := plan[i];
      if slot.key in d.state.steps then RunSlots(w, plan, i + 1, d, life, kill, misses)
      else
        var misses' := if life.late(slot.key) > GRACE_SECONDS then misses + 1 else misses;
        var done := MarkDone(slot.key, slot.second + life.delay(slot.key));
        var t := RunScript(w, d, Script(w, d, slot, life), kill);
        if t.end == Stopped then (t, misses')
        else
          var t' := Act(w, t.disk, done, t.kill);
          if t'.end == Stopped then (t', misses')
          else RunSlots(w, plan, i + 1, t'.disk, life, t'.kill, misses')
  }

  /** After the timeline: the expected results, the budgets, the closure. */
  function ClosingScript(w: World, life: Life, misses: nat): seq<Action>
  {
    [AssertExpected(life.finalVisible), Require(life.safetyEvents == 0),
     Require(life.maxWaitMs <= w.m.maxFairnessWaitMs), Require(misses <= w.m.maxDeadlineMisses),
     Close(w.m.durationSeconds + life.finalDelay)]
  }

  /** A booted worker: the timeline, and the closure if the timeline finishes. */
  function Continued(w: World, booted: Disk, life: Life, kill: nat): Disk
    requires ManifestOk(w.m)
  {
    var (t, misses) := RunSlots(w, Plan(w.m), 0, booted, life, kill, 0);
    if t.end == Stopped then t.disk else RunScript(w, t.disk, ClosingScript(w, life, misses), t.kill).disk
  }

  /** run_worker: nothing for a closed journal, else boot, timeline, closure. */
  function RunWorker(w: World, d: Disk, life: Life): Disk
    requires ManifestOk(w.m)
  {
    if IsClosed(d.journal) || life.kill == 0 then d else Continued(w, Rebooted(d), life, life.kill - 1)
  }

  /** Any number of generations, however each of them ends. */
  function RunLives(w: World, d: Disk, lives: seq<Life>): Disk
    requires ManifestOk(w.m)
    decreases |lives|
  {
    if lives == [] then d else RunLives(w, RunWorker(w, d, lives[0]), lives[1..])
  }
}
