/**
 The soak can be closed: for every manifest there is an environment in which two generations, the second
 after the docker host restart, run the whole timeline and write the closure.
 */
module SoakHonest {
  import opened Bytes
  import opened SoakEvents
  import opened SoakPlan
  import opened SoakDriver
  import opened SoakVerifier
  import opened SoakInvariant
  import opened SoakClosure
  import opened SoakCharges
  import opened Text

  // ---- who is charged when ----

  function Repeat(s: Step, n: nat): (r: seq<Step>)
    ensures |r| == n && forall i :: 0 <= i < n ==> r[i] == s
  {
    if n == 0 then [] else Repeat(s, n - 1) + [s]
  }

  /** The charges of a slot, in the order of the ledger. */
  function Share(k: Key): seq<Step>
  {
    match k
    case PulseSlot(i) => [Pulse(i)]
    case AggregateSlot(i) => [Stale(i)] + Repeat(Aggregate(i), 7)
    case SponsorSlot => [Sponsorship]
    case WithdrawSlot => [Withdrawal]
    case _ => []
  }

  /** The charges of the first i slots. */
  function Charged(plan: seq<Slot>, i: nat): seq<Step>
    requires i <= |plan|
  {
    if i == 0 then [] else Charged(plan, i - 1) + Share(plan[i - 1].key)
  }

  function SlotOf(s: Step): Key
  {
    match s
    case Pulse(i) => PulseSlot(i)
    case Aggregate(i) => AggregateSlot(i)
    case Member(i, _) => AggregateSlot(i)
    case Stale(i) => AggregateSlot(i)
    case Sponsorship => SponsorSlot
    case Withdrawal => WithdrawSlot
    case Reconciliation => ReconcileSlot
  }

  lemma {:induction false} ChargedBefore(plan: seq<Slot>, i: nat, s: Step)
    requires i <= |plan| && s in Charged(plan, i)
    ensures exists k :: 0 <= k < i && plan[k].key == SlotOf(s)
  {
    if s in Share(plan[i - 1].key) {
      assert plan[i - 1].key == SlotOf(s);
    } else {
      ChargedBefore(plan, i - 1, s);
    }
  }

  /** A step is not charged before its slot. */
  lemma NotYet(plan: seq<Slot>, i: nat, s: Step)
    requires i < |plan| && KeysDistinct(plan) && plan[i].key == SlotOf(s)
    ensures s !in Charged(plan, i)
  {
    if s in Charged(plan, i) {
      ChargedBefore(plan, i, s);
    }
  }

  lemma {:induction false} ChargedGrows(plan: seq<Slot>, i: nat, k: nat)
    requires i <= k <= |plan|
    ensures |Charged(plan, i)| <= |Charged(plan, k)| <= |Charged(plan, i)| + 8 * (k - i)
    decreases k - i
  {
    if i < k {
      ChargedGrows(plan, i, k - 1);
      ShareIsSmall(plan[k - 1].key);
      assert |Charged(plan, k)| == |Charged(plan, k - 1)| + |Share(plan[k - 1].key)|;
    }
  }

  lemma ShareIsSmall(k: Key)
    ensures |Share(k)| <= 8
  {
  }

  // ---- the ledger of an honest soak ----

  /** The n-th charge id. */
  function Name(n: nat): string
  {
    if n == 0 then "c" else Name(n - 1) + "c"
  }

  lemma {:induction false} NameLength(n: nat)
    ensures |Name(n)| == n + 1
  {
    if n > 0 { NameLength(n - 1); }
  }

  function UnitLedger(n: nat): Ledger
  {
    if n == 0 then [] else UnitLedger(n - 1) + [Entry(n, Name(n - 1), 1, 1)]
  }

  lemma {:induction false} UnitLedgerFacts(n: nat)
    ensures |UnitLedger(n)| == n
    ensures forall i :: 0 <= i < n ==> UnitLedger(n)[i] == Entry(i + 1, Name(i), 1, 1)
    ensures LedgerUsage(UnitLedger(n)) == n && LedgerWei(UnitLedger(n)) == n
  {
    if n > 0 {
      UnitLedgerFacts(n - 1);
      assert UnitLedger(n)[..n - 1] == UnitLedger(n - 1);
    }
  }

  lemma UnitLedgerOk(n: nat)
    ensures LedgerOk(UnitLedger(n))
  {
    UnitLedgerFacts(n);
    forall i, k | 0 <= i < k < n
      ensures UnitLedger(n)[i].chargeId != UnitLedger(n)[k].chargeId
    {
      NameLength(i);
      NameLength(k);
    }
  }

  // ---- what an honest journal charges ----

  /** The charges of a journal are the first ones of the ledger, booked to these steps. */
  predicate Tracks(j: EventLog, steps: seq<Step>)
  {
    if j == [] then steps == []
    else
      var b := j[|j| - 1].body;
      if b.Charge? then
        && steps != [] && b.step == steps[|steps| - 1] && b.chargeId == Name(|steps| - 1)
        && Tracks(j[..|j| - 1], steps[..|steps| - 1])
      else Tracks(j[..|j| - 1], steps)
  }

  function Count(steps: seq<Step>, s: Step): nat
  {
    if steps == [] then 0 else Count(steps[..|steps| - 1], s) + (if steps[|steps| - 1] == s then 1 else 0)
  }

  lemma {:induction false} TracksCount(j: EventLog, steps: seq<Step>, s: Step)
    requires Tracks(j, steps)
    ensures StepCharges(j, s) == Count(steps, s)
    decreases |j|
  {
    if j != [] {
      var rest := if j[|j| - 1].body.Charge? then steps[..|steps| - 1] else steps;
      TracksCount(j[..|j| - 1], rest, s);
    }
  }

  ghost predicate Named(c: string, n: nat)
  {
    exists k :: 0 <= k < n && c == Name(k)
  }

  lemma {:induction false} TracksIds(j: EventLog, steps: seq<Step>)
    requires Tracks(j, steps)
    ensures forall n :: 0 <= n < |steps| ==> HasCharge(j, Name(n))
    ensures forall i :: 0 <= i < |j| && j[i].body.Charge? ==> Named(j[i].body.chargeId, |steps|)
    decreases |j|
  {
    if j != [] {
      var front, last := j[..|j| - 1], j[|j| - 1].body;
      var rest := if last.Charge? then steps[..|steps| - 1] else steps;
      TracksIds(front, rest);
      forall n | 0 <= n < |steps|
        ensures HasCharge(j, Name(n))
      {
        if n < |rest| {
          assert HasCharge(front, Name(n));
          ChargeStays(front, j, Name(n));
        }
      }
      forall i | 0 <= i < |j| && j[i].body.Charge?
        ensures Named(j[i].body.chargeId, |steps|)
      {
        if i < |front| { assert front[i] == j[i]; }
      }
    }
  }

  lemma TracksAppend(j: EventLog, steps: seq<Step>, e: Event)
    requires Tracks(j, steps)
    ensures !e.body.Charge? ==> Tracks(j + [e], steps)
    ensures e.body.Charge? && e.body.chargeId == Name(|steps|) ==> Tracks(j + [e], steps + [e.body.step])
  {
    assert (j + [e])[..|j|] == j;
    if e.body.Charge? {
      var more := steps + [e.body.step];
      assert more[..|more| - 1] == steps;
    }
  }

  lemma {:induction false} CountNew(steps: seq<Step>, s: Step, n: nat)
    requires s !in steps
    ensures Count(steps + Repeat(s, n), s) == n
  {
    var all := steps + Repeat(s, n);
    if n > 0 {
      CountNew(steps, s, n - 1);
      assert all[..|all| - 1] == steps + Repeat(s, n - 1);
    } else {
      assert all == steps;
      CountNone(steps, s);
    }
  }

  lemma {:induction false} CountNone(steps: seq<Step>, s: Step)
    requires s !in steps
    ensures Count(steps, s) == 0
  {
    if steps != [] { CountNone(steps[..|steps| - 1], s); }
  }

  // ---- scripts without surprises ----

  const OPERATION := "operation"

  ghost predicate OneOperation(j: EventLog)
  {
    forall i :: 0 <= i < |j| && j[i].body.Broadcast? ==> j[i].body.operationId == OPERATION
  }

  /** The check passes, the broadcast is of the one operation, the page follows on with the count it should have. */
  ghost predicate EasyAction(w: World, a: Action, steps: seq<Step>)
  {
    match a
    case Require(ok) => ok
    case Emit(_, b) => !b.Charge? && !b.Closed? && (b.Broadcast? ==> b.operationId == OPERATION)
    case Charges(step, from, until, expected) =>
      && from == |steps| <= until <= |w.ledger| && step !in steps
      && (expected.Some? ==> expected.value == until - from)
    case Reconciles(visible) => visible == |w.ledger| == |steps|
    case _ => false
  }

  /** The charges of an action. */
  ghost function Own(a: Action): seq<Step>
  {
    if a.Charges? && a.from <= a.until then Repeat(a.step, a.until - a.from) else []
  }

  ghost predicate Easy(w: World, script: seq<Action>, steps: seq<Step>)
    decreases |script|
  {
    script == [] || (EasyAction(w, script[0], steps) && Easy(w, script[1..], steps + Own(script[0])))
  }

  ghost function Adds(script: seq<Action>): seq<Step>
  {
    if script == [] then [] else Own(script[0]) + Adds(script[1..])
  }

  /** The durable actions of a script, lines and cursors included. */
  ghost function Need(script: seq<Action>): nat
  {
    if script == [] then 0 else NeedOf(script[0]) + Need(script[1..])
  }

  ghost function NeedOf(a: Action): nat
  {
    1 + (if a.Charges? && a.from < a.until then a.until - a.from + 1 else 0)
  }

  lemma AddsFirst(a: Action, rest: seq<Action>)
    ensures Adds([a] + rest) == Own(a) + Adds(rest)
  {
    assert ([a] + rest)[1..] == rest;
  }

  lemma {:induction false} AddsThen(a: seq<Action>, b: seq<Action>)
    ensures Adds(a + b) == Adds(a) + Adds(b)
    decreases |a|
  {
    if a == [] {
      assert a + b == b;
    } else {
      assert a + b == [a[0]] + (a[1..] + b) && a == [a[0]] + a[1..];
      AddsFirst(a[0], a[1..] + b);
      AddsThen(a[1..], b);
      AddsFirst(a[0], a[1..]);
      Regroup(Own(a[0]), Adds(a[1..]), Adds(b));
    }
  }

  lemma EasyFirst(w: World, a: Action, rest: seq<Action>, steps: seq<Step>)
    ensures Easy(w, [a] + rest, steps) <==> EasyAction(w, a, steps) && Easy(w, rest, steps + Own(a))
  {
    assert ([a] + rest)[1..] == rest;
  }

  lemma Regroup(steps: seq<Step>, own: seq<Step>, adds: seq<Step>)
    ensures steps + (own + adds) == (steps + own) + adds
  {
  }

  lemma {:induction false} EasyThen(w: World, a: seq<Action>, b: seq<Action>, steps: seq<Step>)
    requires Easy(w, a, steps) && Easy(w, b, steps + Adds(a))
    ensures Easy(w, a + b, steps)
    decreases |a|
  {
    if a == [] {
      assert a + b == b && steps + Adds(a) == steps;
    } else {
      var rest := a[1..];
      assert a + b == [a[0]] + (rest + b) && a == [a[0]] + rest;
      AddsFirst(a[0], rest);
      EasyFirst(w, a[0], rest, steps);
      Regroup(steps, Own(a[0]), Adds(rest));
      EasyThen(w, rest, b, steps + Own(a[0]));
      EasyFirst(w, a[0], rest + b, steps);
    }
  }

  // ---- an honest state ----

  ghost predicate Honest(w: World, d: Disk, steps: seq<Step>)
  {
    && w.ledger == UnitLedger(|w.ledger|) && |steps| <= |w.ledger| && |w.ledger| <= PAGE_LIMIT
    && Core(w, d) && Tracks(d.journal, steps) && d.state.cursor == |steps| && OneOperation(d.journal)
  }

  lemma HonestEmit(w: World, d: Disk, id: EventId, b: Body, steps: seq<Step>)
    requires Honest(w, d, steps) && Core(w, Emitted(d, id, b))
    requires !b.Charge? && (b.Broadcast? ==> b.operationId == OPERATION)
    ensures Honest(w, Emitted(d, id, b), steps)
  {
    if !HasId(d.journal, id) {
      TracksAppend(d.journal, steps, Event(|d.journal| + 1, Some(id), b, d.state.boots));
    }
  }

  /** The next charge of the ledger is not journaled yet. */
  lemma NextIsNew(w: World, d: Disk, steps: seq<Step>)
    requires Core(w, d) && Tracks(d.journal, steps)
    ensures !HasId(d.journal, ChargeId(Name(|steps|)))
  {
    var c := Name(|steps|);
    if HasId(d.journal, ChargeId(c)) {
      IdIsCharge(w, d.journal, d.state.boots, c);
      TracksIds(d.journal, steps);
      var i :| 0 <= i < |d.journal| && d.journal[i].body.Charge? && d.journal[i].body.chargeId == c;
      assert Named(d.journal[i].body.chargeId, |steps|);
      var k :| 0 <= k < |steps| && c == Name(k);
      NameLength(|steps|);
      NameLength(k);
    }
  }

  /** What tracking needs of a disk; the state file is apart. */
  ghost predicate Booked(w: World, d: Disk, steps: seq<Step>)
  {
    Core(w, d) && Tracks(d.journal, steps) && OneOperation(d.journal)
  }

  /** One more entry of the ledger is one more line. */
  lemma HonestEntry(w: World, d: Disk, steps: seq<Step>, step: Step, e: Entry)
    requires Booked(w, d, steps) && e in w.ledger && e.chargeId == Name(|steps|)
    ensures Booked(w, Entered(d, e, step), steps + [step]) && Entered(d, e, step).state == d.state
  {
    NextIsNew(w, d, steps);
    EntryCore(w, d, e, step);
    var line := Event(|d.journal| + 1, Some(ChargeId(e.chargeId)), Charge(e.chargeId, e.usageUnits, e.chargeWei, step),
        d.state.boots);
    TracksAppend(d.journal, steps, line);
  }

  ghost predicate AllBooked(w: World, d: Disk, steps: seq<Step>, t: Turn, kill: nat)
  {
    t.end == Finished && t.kill == kill && t.disk.state == d.state && Booked(w, t.disk, steps)
  }

  /** A page that goes on where the charges end. */
  ghost predicate Continues(l: Ledger, page: seq<Entry>, c: nat)
  {
    forall i :: 0 <= i < |page| ==> page[i] in l && page[i].chargeId == Name(c + i)
  }

  function Entered(d: Disk, e: Entry, step: Step): Disk
  {
    Emitted(d, ChargeId(e.chargeId), Charge(e.chargeId, e.usageUnits, e.chargeWei, step))
  }

  /** A page entry takes the invariant one further. */
  ghost predicate EntryKeeps(page: seq<Entry>, step: Step, inv: (nat, Disk) -> bool, k: nat)
    requires k < |page|
  {
    forall d :: inv(k, d) ==> inv(k + 1, Entered(d, page[k], step))
  }

  /** The whole page is written if the life is long enough, and takes the invariant to its end. */
  lemma {:induction false} EntriesAll(d: Disk, page: seq<Entry>, i: nat, step: Step, kill: nat,
      inv: (nat, Disk) -> bool)
    requires i <= |page| && kill >= |page| - i && inv(i, d)
    requires forall k :: i <= k < |page| ==> EntryKeeps(page, step, inv, k)
    ensures var t := EmitEntries(d, page[i..], step, kill);
      t.end == Finished && t.kill == kill - (|page| - i) && inv(|page|, t.disk)
    decreases |page| - i
  {
    if i < |page| {
      assert EntryKeeps(page, step, inv, i);
      EntriesAll(Entered(d, page[i], step), page, i + 1, step, kill - 1, inv);
      assert page[i..][1..] == page[i + 1..] && page[i..][0] == page[i];
    }
  }

  lemma RepeatMore(steps: seq<Step>, step: Step, n: nat)
    ensures steps + Repeat(step, 0) == steps
    ensures (steps + Repeat(step, n)) + [step] == steps + Repeat(step, n + 1)
  {
  }

  lemma HonestNext(w: World, d: Disk, steps: seq<Step>, step: Step, page: seq<Entry>, k: nat)
    requires Booked(w, d, steps + Repeat(step, k)) && k < |page| && Continues(w.ledger, page, |steps|)
    ensures Booked(w, Entered(d, page[k], step), steps + Repeat(step, k + 1))
    ensures Entered(d, page[k], step).state == d.state
  {
    HonestEntry(w, d, steps + Repeat(step, k), step, page[k]);
    RepeatMore(steps, step, k);
  }

  /** The first k entries of a page are booked; the state file is as it was. */
  ghost function BookedUpTo(w: World, state: State, steps: seq<Step>, step: Step): (nat, Disk) -> bool
  {
    (k: nat, e: Disk) => e.state == state && Booked(w, e, steps + Repeat(step, k))
  }

  lemma BookingKeeps(w: World, state: State, steps: seq<Step>, step: Step, page: seq<Entry>, k: nat)
    requires k < |page| && Continues(w.ledger, page, |steps|)
    ensures EntryKeeps(page, step, BookedUpTo(w, state, steps, step), k)
  {
    forall e | BookedUpTo(w, state, steps, step)(k, e)
      ensures BookedUpTo(w, state, steps, step)(k + 1, Entered(e, page[k], step))
    {
      HonestNext(w, e, steps, step, page, k);
    }
  }

  lemma StartsBooked(w: World, d: Disk, steps: seq<Step>, step: Step)
    requires Booked(w, d, steps)
    ensures BookedUpTo(w, d.state, steps, step)(0, d)
  {
    RepeatMore(steps, step, 0);
  }

  /** The entries of a page that is all new. */
  lemma HonestEntries(w: World, d: Disk, steps: seq<Step>, step: Step, page: seq<Entry>, kill: nat)
    requires Booked(w, d, steps) && kill >= |page| && Continues(w.ledger, page, |steps|)
    ensures AllBooked(w, d, steps + Repeat(step, |page|), EmitEntries(d, page, step, kill), kill - |page|)
  {
    StartsBooked(w, d, steps, step);
    AllEntries(w, d, steps, step, page, kill);
    assert page[0..] == page;
    BookedMeans(w, d, steps, step, |page|, EmitEntries(d, page, step, kill), kill - |page|);
  }

  lemma AllEntries(w: World, d: Disk, steps: seq<Step>, step: Step, page: seq<Entry>, kill: nat)
    requires BookedUpTo(w, d.state, steps, step)(0, d) && kill >= |page| && Continues(w.ledger, page, |steps|)
    ensures var t := EmitEntries(d, page[0..], step, kill);
      t.end == Finished && t.kill == kill - |page| && BookedUpTo(w, d.state, steps, step)(|page|, t.disk)
  {
    forall k | 0 <= k < |page|
      ensures EntryKeeps(page, step, BookedUpTo(w, d.state, steps, step), k)
    {
      BookingKeeps(w, d.state, steps, step, page, k);
    }
    EntriesAll(d, page, 0, step, kill, BookedUpTo(w, d.state, steps, step));
  }

  lemma BookedMeans(w: World, d: Disk, steps: seq<Step>, step: Step, n: nat, t: Turn, left: nat)
    requires t.end == Finished && t.kill == left && BookedUpTo(w, d.state, steps, step)(n, t.disk)
    ensures AllBooked(w, d, steps + Repeat(step, n), t, left)
  {
  }

  /** The k-th entry is the k-th charge. */
  ghost predicate Units(l: Ledger)
  {
    forall k :: 0 <= k < |l| ==> l[k] == Entry(k + 1, Name(k), 1, 1)
  }

  lemma LedgerUnits(l: Ledger)
    requires l == UnitLedger(|l|)
    ensures Units(l)
  {
    UnitLedgerFacts(|l|);
  }

  lemma PageNames(l: Ledger, from: nat, until: nat)
    requires Units(l) && from <= until <= |l|
    ensures Continues(l, l[from..until], from)
    ensures from < until ==> l[until - 1].entryId == until
  {
    forall i | 0 <= i < until - from
      ensures l[from..until][i] in l && l[from..until][i].chargeId == Name(from + i)
    {
      assert l[from..until][i] == l[from + i];
    }
  }

  lemma BookedCount(j: EventLog, steps: seq<Step>, step: Step, n: nat)
    requires Tracks(j, steps + Repeat(step, n)) && step !in steps
    ensures StepCharges(j, step) == n
  {
    TracksCount(j, steps + Repeat(step, n), step);
    CountNew(steps, step, n);
  }

  /** A charging action on a page that is all new: the lines, then the cursor. */
  ghost function Booking(l: Ledger, a: Action, t: Turn): Disk
    requires a.Charges? && a.until <= |l|
  {
    if a.from < a.until then t.disk.(state := t.disk.state.(cursor := l[a.until - 1].entryId)) else t.disk
  }

  lemma ChargesUnfold(w: World, d: Disk, a: Action, kill: nat, t: Turn)
    requires a.Charges? && PageAt(w.ledger, a.from, a.until, d.state.cursor) && kill >= NeedOf(a)
    requires t == EmitEntries(d, w.ledger[a.from..a.until], a.step, kill - 1)
    requires t.end == Finished && t.kill == kill - 1 - (a.until - a.from)
    requires a.expected.Some? ==> StepCharges(t.disk.journal, a.step) == a.expected.value
    ensures Act(w, d, a, kill) == Turn(Booking(w.ledger, a, t), Finished, kill - NeedOf(a))
  {
  }

  ghost predicate Worked(w: World, t: Turn, steps: seq<Step>, kill: nat)
  {
    t.end == Finished && t.kill == kill && Honest(w, t.disk, steps)
  }

  /** The page of a charging action is booked. */
  lemma HonestPages(w: World, d: Disk, steps: seq<Step>, a: Action, kill: nat, t: Turn)
    requires Honest(w, d, steps) && a.Charges? && EasyAction(w, a, steps) && kill >= a.until - a.from
    requires t == EmitEntries(d, w.ledger[a.from..a.until], a.step, kill)
    ensures PageAt(w.ledger, a.from, a.until, d.state.cursor)
    ensures t.end == Finished && t.kill == kill - (a.until - a.from) && t.disk.state == d.state
    ensures Tracks(t.disk.journal, steps + Own(a)) && OneOperation(t.disk.journal)
    ensures a.expected.Some? ==> StepCharges(t.disk.journal, a.step) == a.expected.value
    ensures a.from < a.until ==> w.ledger[a.until - 1].entryId == a.until
  {
    HonestPage(w, steps, a.until);
    LedgerUnits(w.ledger);
    PageNames(w.ledger, a.from, a.until);
    HonestEntries(w, d, steps, a.step, w.ledger[a.from..a.until], kill);
    BookedCount(t.disk.journal, steps, a.step, a.until - a.from);
  }

  /** The state after the cursor is saved. */
  lemma HonestCursor(w: World, steps: seq<Step>, a: Action, t: Turn, d: Disk)
    requires w.ledger == UnitLedger(|w.ledger|) && |w.ledger| <= PAGE_LIMIT
    requires a.Charges? && a.from <= a.until <= |w.ledger| && t.disk.state.cursor == a.from
    requires Tracks(t.disk.journal, steps) && OneOperation(t.disk.journal) && |steps| == a.until
    requires a.from < a.until ==> w.ledger[a.until - 1].entryId == a.until
    requires d == Booking(w.ledger, a, t) && Core(w, d)
    ensures Honest(w, d, steps)
  {
  }

  lemma HonestPage(w: World, steps: seq<Step>, until: nat)
    requires w.ledger == UnitLedger(|w.ledger|) && |steps| <= until <= |w.ledger| <= PAGE_LIMIT
    ensures PageAt(w.ledger, |steps|, until, |steps|)
  {
    UnitLedgerFacts(|w.ledger|);
  }

  lemma HonestReconciles(w: World, d: Disk, steps: seq<Step>)
    requires Honest(w, d, steps) && LedgerOk(w.ledger) && |steps| == |w.ledger|
    ensures AgreesWithLedger(w, d.journal, |w.ledger|) && DistinctCharges(d.journal)
  {
    UnitLedgerFacts(|w.ledger|);
    TracksIds(d.journal, steps);
    ChargesAreDistinct(w, d.journal, d.state.boots);
    AllListed(w.ledger, d.journal, |steps|);
    AgreementIsIds(w, d.journal, d.state.boots, |w.ledger|);
  }

  lemma AllListed(l: Ledger, j: EventLog, n: nat)
    requires l == UnitLedger(|l|) && n == |l| <= PAGE_LIMIT && forall k :: 0 <= k < n ==> HasCharge(j, Name(k))
    requires forall i :: 0 <= i < |j| && j[i].body.Charge? ==> Named(j[i].body.chargeId, n)
    ensures SameIds(j, FirstPage(l, n))
  {
    UnitLedgerFacts(n);
    assert FirstPage(l, n) == l;
    forall i | 0 <= i < |j| && j[i].body.Charge?
      ensures Lists(l, j[i].body.chargeId)
    {
      var k :| 0 <= k < n && j[i].body.chargeId == Name(k);
      assert l[k].chargeId == j[i].body.chargeId;
    }
  }

  /** The action finishes, and its charges are booked. */
  ghost predicate Acted(w: World, d: Disk, a: Action, steps: seq<Step>, kill: nat)
    requires kill >= NeedOf(a)
  {
    Worked(w, Act(w, d, a, kill), steps + Own(a), kill - NeedOf(a))
  }

  lemma HonestRequire(w: World, d: Disk, ok: bool, steps: seq<Step>, kill: nat)
    requires Honest(w, d, steps) && ok && kill >= 1
    ensures Acted(w, d, Require(ok), steps, kill)
  {
    assert steps + Own(Require(ok)) == steps;
  }

  lemma HonestEmits(w: World, d: Disk, id: EventId, b: Body, steps: seq<Step>, kill: nat)
    requires Honest(w, d, steps) && LedgerOk(w.ledger) && Sound(w, [Emit(id, b)]) && kill >= 1
    requires !b.Charge? && !b.Closed? && (b.Broadcast? ==> b.operationId == OPERATION)
    ensures Acted(w, d, Emit(id, b), steps, kill)
  {
    assert steps + Own(Emit(id, b)) == steps;
    ActCore(w, d, Emit(id, b), kill);
    HonestEmit(w, d, id, b, steps);
  }

  lemma HonestReconcile(w: World, d: Disk, steps: seq<Step>, kill: nat)
    requires Honest(w, d, steps) && LedgerOk(w.ledger) && |steps| == |w.ledger| && kill >= 1
    ensures Acted(w, d, Reconciles(|w.ledger|), steps, kill)
  {
    var b := Reconcile(Usage(d.journal), Wei(d.journal));
    assert steps + Own(Reconciles(|w.ledger|)) == steps;
    HonestReconciles(w, d, steps);
    EmitCore(w, d, ReconcileId, b);
    HonestEmit(w, d, ReconcileId, b, steps);
  }

  /** A charging action that books what it should. */
  lemma HonestCharging(w: World, d: Disk, steps: seq<Step>, a: Action, kill: nat)
    requires Honest(w, d, steps) && LedgerOk(w.ledger) && a.Charges? && EasyAction(w, a, steps) && kill >= NeedOf(a)
    ensures Acted(w, d, a, steps, kill)
  {
    var t := EmitEntries(d, w.ledger[a.from..a.until], a.step, kill - 1);
    HonestPages(w, d, steps, a, kill - 1, t);
    ChargesCarry(w, d, a, kill);
    ChargesUnfold(w, d, a, kill, t);
    HonestCursor(w, steps + Own(a), a, t, Act(w, d, a, kill).disk);
  }

  lemma ChargesCarry(w: World, d: Disk, a: Action, kill: nat)
    requires Core(w, d) && LedgerOk(w.ledger) && a.Charges? && kill > 0
    ensures Core(w, Act(w, d, a, kill).disk)
  {
    ChargesCore(w, d, a.step, a.from, a.until, a.expected, kill - 1);
  }

  /** An easy action finishes. */
  lemma HonestAct(w: World, d: Disk, a: Action, steps: seq<Step>, kill: nat)
    requires Honest(w, d, steps) && LedgerOk(w.ledger) && EasyAction(w, a, steps) && Sound(w, [a]) && kill >= NeedOf(a)
    ensures Acted(w, d, a, steps, kill)
  {
    match a
    case Require(ok) => HonestRequire(w, d, ok, steps, kill);
    case Emit(id, b) => HonestEmits(w, d, id, b, steps, kill);
    case Charges(_, _, _, _) => HonestCharging(w, d, steps, a, kill);
    case Reconciles(_) => HonestReconcile(w, d, steps, kill);
  }

  /** An easy script runs through, however long the worker lives beyond it. */
  lemma {:induction false} HonestRun(w: World, d: Disk, script: seq<Action>, steps: seq<Step>, kill: nat)
    requires Honest(w, d, steps) && LedgerOk(w.ledger) && Easy(w, script, steps) && Sound(w, script)
    requires kill >= Need(script)
    ensures Worked(w, RunScript(w, d, script, kill), steps + Adds(script), kill - Need(script))
    decreases |script|
  {
    if script == [] {
      assert steps + Adds(script) == steps;
    } else {
      var a, rest := script[0], script[1..];
      assert Sound(w, [a]) && Sound(w, rest);
      HonestAct(w, d, a, steps, kill);
      var t := Act(w, d, a, kill);
      HonestRun(w, t.disk, rest, steps + Own(a), t.kill);
      Regroup(steps, Own(a), Adds(rest));
    }
  }

  // ---- honest answers ----

  const OP := Operation(OPERATION, "nonce", "hash")
  const JOBS := Jobs("prepare", "prove", "verify", 0)

  function HonestPulse(start: nat): PulseAnswers
  {
    PulseAnswers([], JOBS, OP, Page(start, start + 1))
  }

  ghost predicate HonestAggregate(a: AggregateAnswers, start: nat)
  {
    && (forall n :: a.members(n) == MemberAnswers([], JOBS)) && (forall n :: a.blobJobs(n) == "blob")
    && a.stale == OP && a.stalePage == Page(start, start + 1) && a.prove == JOBS.prove && a.operation == OP
    && a.selector == AGGREGATE_SELECTOR && a.transactionType == 3 && a.boundMembers == 8 && a.boundBlobs == 6
    && a.applied == 7 && a.failed == 1 && a.page == Page(start + 1, start + 8)
  }

  function HonestSponsor(start: nat): SponsorAnswers
  {
    SponsorAnswers(OP, OP, OP, OP, SPONSOR_SELECTORS, "payer", "beneficiary", "payer", true, Page(start, start + 1))
  }

  function HonestWithdraw(start: nat): WithdrawAnswers
  {
    WithdrawAnswers(OP, WITHDRAWAL_SELECTOR, true, Page(start, start + 1))
  }

  /** The services answer a slot as they should when `start` entries have been journaled. */
  ghost predicate HonestFor(k: Key, start: nat, total: nat, life: Life)
  {
    match k
    case PulseSlot(i) => life.pulses(i) == HonestPulse(start)
    case AggregateSlot(i) => HonestAggregate(life.aggregates(i), start)
    case SponsorSlot => life.sponsor == HonestSponsor(start)
    case WithdrawSlot => life.withdraw == HonestWithdraw(start)
    case ReconcileSlot => start == total && life.reconcilePage == Page(total, total) && life.reconcileVisible == total
    case _ => true
  }

  // ---- honest scripts are easy ----

  ghost predicate PlainAction(a: Action)
  {
    || (a.Require? && a.ok)
    || (a.Emit? && !a.body.Charge? && !a.body.Closed? && (a.body.Broadcast? ==> a.body.operationId == OPERATION))
  }

  ghost predicate Plain(script: seq<Action>)
  {
    forall a :: a in script ==> PlainAction(a)
  }

  lemma {:induction false} PlainEasy(w: World, script: seq<Action>, steps: seq<Step>)
    requires Plain(script)
    ensures Easy(w, script, steps) && Adds(script) == []
    decreases |script|
  {
    if script != [] {
      assert script[0] in script && forall a :: a in script[1..] ==> a in script;
      assert steps + Own(script[0]) == steps;
      PlainEasy(w, script[1..], steps);
    }
  }

  lemma PlainThen(w: World, a: seq<Action>, b: seq<Action>, steps: seq<Step>)
    requires Plain(a) && Easy(w, b, steps)
    ensures Easy(w, a + b, steps) && Adds(a + b) == Adds(b)
  {
    PlainEasy(w, a, steps);
    assert steps + Adds(a) == steps;
    EasyThen(w, a, b, steps);
    AddsThen(a, b);
    assert [] + Adds(b) == Adds(b);
  }

  /** A page of n new entries, then what follows. */
  lemma ChargeThen(w: World, step: Step, n: nat, expected: Option<nat>, b: seq<Action>, steps: seq<Step>)
    requires step !in steps && |steps| + n <= |w.ledger| && (expected.Some? ==> expected.value == n)
    requires Easy(w, b, steps + Repeat(step, n))
    ensures var s := [Charges(step, |steps|, |steps| + n, expected)] + b;
      Easy(w, s, steps) && Adds(s) == Repeat(step, n) + Adds(b)
  {
    var a := Charges(step, |steps|, |steps| + n, expected);
    EasyFirst(w, a, b, steps);
    AddsFirst(a, b);
  }

  lemma EmptyEasy(w: World, steps: seq<Step>)
    ensures Easy(w, [], steps) && Adds([]) == []
  {
  }

  lemma BroadcastPlain()
    ensures Plain(BroadcastOf(OP))
  {
  }

  lemma ProvePlain(w: World, step: Step, room: string)
    requires Hex64(w.digest(JOBS.prove))
    ensures Plain(ProveAndVerify(w, step, room, JOBS))
  {
  }

  lemma {:induction false} RoomsPlain(rooms: seq<string>)
    ensures Plain(CreateRooms(rooms))
  {
    if rooms != [] { RoomsPlain(rooms[1..]); }
  }

  lemma PlainBoth(a: seq<Action>, b: seq<Action>)
    requires Plain(a) && Plain(b)
    ensures Plain(a + b)
  {
  }

  lemma {:induction false} MembersPlain(w: World, i: nat, a: AggregateAnswers, start: nat, count: nat)
    requires count <= 8 && HonestAggregate(a, start) && Hex64(w.digest(JOBS.prove))
    ensures Plain(MemberScripts(w, i, a, count))
  {
    if count > 0 {
      var room, before := AGGREGATE_ROOMS[count - 1], MemberScripts(w, i, a, count - 1);
      MembersPlain(w, i, a, start, count - 1);
      ProvePlain(w, Member(i, count - 1), room);
      assert a.members(count - 1) == MemberAnswers([], JOBS);
      assert Admit(room, []) == [] && before + [] == before;
      PlainBoth(before, ProveAndVerify(w, Member(i, count - 1), room, JOBS));
    }
  }

  lemma {:induction false} BlobsPlain(i: nat, a: AggregateAnswers, start: nat, count: nat)
    requires count <= 6 && HonestAggregate(a, start)
    ensures Plain(BlobScripts(i, a, count))
  {
    if count > 0 {
      BlobsPlain(i, a, start, count - 1);
      assert a.blobJobs(count - 1) == "blob";
      PlainBoth(BlobScripts(i, a, count - 1),
                [Require(a.blobJobs(count - 1) != ""),
                 Emit(BlobId(Aggregate(i), count - 1),
                     BlobArchive(AGGREGATE_ROOMS[count - 1], a.blobJobs(count - 1)))]);
    }
  }

  lemma PulseEasy(w: World, i: nat, steps: seq<Step>)
    requires Pulse(i) !in steps && |steps| < |w.ledger| && Hex64(w.digest(JOBS.prove))
    ensures var s := PulseScript(w, i, HonestPulse(|steps|)); Easy(w, s, steps) && Adds(s) == Share(PulseSlot(i))
  {
    var step, a := Pulse(i), HonestPulse(|steps|);
    var charge := [Charges(step, |steps|, |steps| + 1, Some(1))];
    var before := [Emit(LeaseId(step), Lease(PULSE_ROOM))] + ProveAndVerify(w, step, PULSE_ROOM, JOBS) + BroadcastOf(OP)
                  + [Emit(FinalizeId(step), Finalize(JOBS.prove, w.digest(JOBS.prove)))];
    assert PulseScript(w, i, a) == before + (charge + []);
    ProvePlain(w, step, PULSE_ROOM);
    BroadcastPlain();
    EmptyEasy(w, steps + Repeat(step, 1));
    ChargeThen(w, step, 1, Some(1), [], steps);
    PlainThen(w, before, charge + [], steps);
    assert Repeat(step, 1) + [] == [Pulse(i)];
  }

  lemma SponsorEasy(w: World, steps: seq<Step>)
    requires Sponsorship !in steps && |steps| < |w.ledger|
    ensures var s := SponsorScript(HonestSponsor(|steps|)); Easy(w, s, steps) && Adds(s) == Share(SponsorSlot)
  {
    var a := HonestSponsor(|steps|);
    var charge := [Charges(Sponsorship, |steps|, |steps| + 1, Some(1))];
    var before := [Require(a.selectors == SPONSOR_SELECTORS)] + BroadcastOf(OP) + BroadcastOf(OP) + BroadcastOf(OP)
        + BroadcastOf(OP)
                  + [SponsorResult(a)[0]];
    var after := [SponsorResult(a)[2]];
    assert SponsorScript(a) == before + (charge + after);
    BroadcastPlain();
    PlainEasy(w, after, steps + Repeat(Sponsorship, 1));
    ChargeThen(w, Sponsorship, 1, Some(1), after, steps);
    PlainThen(w, before, charge + after, steps);
    assert Repeat(Sponsorship, 1) + [] == [Sponsorship];
  }

  lemma WithdrawEasy(w: World, steps: seq<Step>)
    requires Withdrawal !in steps && |steps| < |w.ledger|
    ensures var s := WithdrawScript(HonestWithdraw(|steps|)); Easy(w, s, steps) && Adds(s) == Share(WithdrawSlot)
  {
    var a := HonestWithdraw(|steps|);
    var charge := [Charges(Withdrawal, |steps|, |steps| + 1, Some(1))];
    var before := [Require(a.selector == WITHDRAWAL_SELECTOR)] + BroadcastOf(OP) + [WithdrawResult(a)[0]];
    var after := [WithdrawResult(a)[2]];
    assert WithdrawScript(a) == before + (charge + after);
    BroadcastPlain();
    PlainEasy(w, after, steps + Repeat(Withdrawal, 1));
    ChargeThen(w, Withdrawal, 1, Some(1), after, steps);
    PlainThen(w, before, charge + after, steps);
    assert Repeat(Withdrawal, 1) + [] == [Withdrawal];
  }

  lemma CheckEasy(w: World, steps: seq<Step>)
    requires |steps| == |w.ledger|
    ensures Easy(w, [Reconciles(|w.ledger|)], steps) && Adds([Reconciles(|w.ledger|)]) == []
  {
    var check := Reconciles(|w.ledger|);
    assert [check] == [check] + [];
    EmptyEasy(w, steps + Own(check));
    EasyFirst(w, check, [], steps);
    AddsFirst(check, []);
  }

  lemma ReconcileEasy(w: World, steps: seq<Step>)
    requires Reconciliation !in steps && |steps| == |w.ledger|
    ensures var n := |w.ledger|; var s := [Charges(Reconciliation, n, n, None), Reconciles(n)];
      Easy(w, s, steps) && Adds(s) == Share(ReconcileSlot)
  {
    var n := |w.ledger|;
    var check := [Reconciles(n)];
    assert steps + Repeat(Reconciliation, 0) == steps;
    CheckEasy(w, steps);
    ChargeThen(w, Reconciliation, 0, None, check, steps);
    assert [Charges(Reconciliation, n, n, None), Reconciles(n)] == [Charges(Reconciliation, n, n, None)] + check;
  }

  /** The aggregate: the stale member's charge, and later the seven of the settlement. */
  lemma AggregateEasy(w: World, i: nat, a: AggregateAnswers, steps: seq<Step>)
    requires HonestAggregate(a, |steps|) && Hex64(w.digest(JOBS.prove)) && |steps| + 8 <= |w.ledger|
    requires Stale(i) !in steps && Aggregate(i) !in steps
    ensures Easy(w, AggregateScript(w, i, a), steps) && Adds(AggregateScript(w, i, a)) == Share(AggregateSlot(i))
  {
    var stale, settle := [Charges(Stale(i), |steps|, |steps| + 1, Some(1))],
        [Charges(Aggregate(i), |steps| + 1, |steps| + 8, Some(7))];
    var before := MemberScripts(w, i, a, 8) + BroadcastOf(OP);
    var between := BlobScripts(i, a, 6) + AggregateProof(w, i, a) + BroadcastOf(OP) + [AggregateSettle(w, i, a)[0]];
    var after := AggregateSettle(w, i, a)[2..];
    var more := steps + Repeat(Stale(i), 1);
    AggregateParts(w, i, a, |steps|, stale, settle, before, between, after);
    PlainEasy(w, after, more + Repeat(Aggregate(i), 7));
    ChargeThen(w, Aggregate(i), 7, Some(7), after, more);
    PlainThen(w, between, settle + after, more);
    ChargeThen(w, Stale(i), 1, Some(1), between + (settle + after), steps);
    PlainThen(w, before, stale + (between + (settle + after)), steps);
    assert Repeat(Stale(i), 1) + (Repeat(Aggregate(i), 7) + []) == [Stale(i)] + Repeat(Aggregate(i), 7);
  }

  lemma AggregateParts(w: World, i: nat, a: AggregateAnswers, start: nat, stale: seq<Action>, settle: seq<Action>,
                       before: seq<Action>, between: seq<Action>, after: seq<Action>)
    requires HonestAggregate(a, start) && Hex64(w.digest(JOBS.prove))
    requires stale == [Charges(Stale(i), start, start + 1, Some(1))]
    requires settle == [Charges(Aggregate(i), start + 1, start + 8, Some(7))]
    requires before == MemberScripts(w, i, a, 8) + BroadcastOf(OP)
    requires between == BlobScripts(i, a, 6) + AggregateProof(w, i, a) + BroadcastOf(OP) + [AggregateSettle(w, i, a)[0]]
    requires after == AggregateSettle(w, i, a)[2..]
    ensures AggregateScript(w, i, a) == before + (stale + (between + (settle + after)))
    ensures Plain(before) && Plain(between) && Plain(after)
  {
    var s := AggregateSettle(w, i, a);
    assert s == [s[0]] + (settle + after);
    Nested(MemberScripts(w, i, a, 8), BroadcastOf(OP), stale, BlobScripts(i, a, 6), AggregateProof(w, i, a), [s[0]],
        settle + after);
    MembersPlain(w, i, a, start, 8);
    BlobsPlain(i, a, start, 6);
    BroadcastPlain();
    ProofPlain(w, i, a, start);
    PlainBoth(MemberScripts(w, i, a, 8), BroadcastOf(OP));
    PlainBoth(BlobScripts(i, a, 6), AggregateProof(w, i, a));
    PlainBoth(BlobScripts(i, a, 6) + AggregateProof(w, i, a), BroadcastOf(OP));
    PlainBoth(BlobScripts(i, a, 6) + AggregateProof(w, i, a) + BroadcastOf(OP), [s[0]]);
  }

  lemma Nested(a: seq<Action>, b: seq<Action>, c: seq<Action>, d: seq<Action>, e: seq<Action>, f: seq<Action>,
      g: seq<Action>)
    ensures a + b + c + d + e + b + (f + g) == (a + b) + (c + ((d + e + b + f) + g))
  {
  }

  lemma ProofPlain(w: World, i: nat, a: AggregateAnswers, start: nat)
    requires HonestAggregate(a, start) && Hex64(w.digest(JOBS.prove))
    ensures Plain(AggregateProof(w, i, a)) && Plain([AggregateSettle(w, i, a)[0]])
      && Plain(AggregateSettle(w, i, a)[2..])
  {
  }

  // ---- the timeline of an honest soak ----

  ghost predicate Docker(k: Key)
  {
    k == FaultSlot(DockerHostRestart)
  }

  ghost predicate FreshShare(k: Key, steps: seq<Step>)
  {
    forall s :: SlotOf(s) == k ==> s !in steps
  }

  /** Every slot but the restart is easy when it is its turn. */
  lemma SlotEasy(w: World, d: Disk, slot: Slot, life: Life, steps: seq<Step>)
    requires !Docker(slot.key) && HonestFor(slot.key, |steps|, |w.ledger|, life) && Hex64(w.digest(JOBS.prove))
    requires FreshShare(slot.key, steps) && |steps| + |Share(slot.key)| <= |w.ledger|
    ensures Easy(w, Script(w, d, slot, life), steps) && Adds(Script(w, d, slot, life)) == Share(slot.key)
  {
    match slot.key
    case SetupSlot =>
      RoomsPlain([PULSE_ROOM] + AGGREGATE_ROOMS);
      PlainEasy(w, Script(w, d, slot, life), steps);
    case PulseSlot(i) =>
      assert SlotOf(Pulse(i)) == slot.key;
      PulseEasy(w, i, steps);
    case AggregateSlot(i) =>
      assert SlotOf(Stale(i)) == slot.key && SlotOf(Aggregate(i)) == slot.key;
      AggregateEasy(w, i, life.aggregates(i), steps);
    case SponsorSlot =>
      assert SlotOf(Sponsorship) == slot.key;
      SponsorEasy(w, steps);
    case WithdrawSlot =>
      assert SlotOf(Withdrawal) == slot.key;
      WithdrawEasy(w, steps);
    case FaultSlot(f) => PlainEasy(w, Script(w, d, slot, life), steps);
    case ReconcileSlot =>
      assert SlotOf(Reconciliation) == slot.key;
      ReconcileEasy(w, steps);
  }

  /** The world and the services of an honest soak over a plan. */
  ghost predicate HonestSoak(w: World, plan: seq<Slot>, life: Life)
  {
    && PlanOk(w.m, plan) && w.ledger == UnitLedger(|Charged(plan, |plan|)|) && |w.ledger| <= PAGE_LIMIT
    && Hex64(w.digest(JOBS.prove)) && life.sealedBytesSame && (forall k :: life.late(k) == 0)
    && forall i {:trigger HonestAt(w, plan, life, i)} :: 0 <= i < |plan| ==> HonestAt(w, plan, life, i)
  }

  ghost predicate HonestAt(w: World, plan: seq<Slot>, life: Life, i: nat)
    requires i < |plan|
  {
    HonestFor(plan[i].key, |Charged(plan, i)|, |w.ledger|, life)
  }

  /** The first i slots are done, and exactly their charges are booked. */
  ghost predicate At(w: World, plan: seq<Slot>, i: nat, d: Disk)
    requires i <= |plan|
  {
    && Honest(w, d, Charged(plan, i)) && TimelineOk(plan, d) && DoneBefore(plan, d, i) && Undone(plan, d, i)
  }

  ghost predicate Undone(plan: seq<Slot>, d: Disk, i: nat)
    requires i <= |plan|
  {
    forall k :: i <= k < |plan| ==> plan[k].key !in d.state.steps
  }

  lemma LedgerFacts(w: World, plan: seq<Slot>, life: Life)
    requires HonestSoak(w, plan, life)
    ensures LedgerOk(w.ledger) && |w.ledger| == |Charged(plan, |plan|)| && w.ledger == UnitLedger(|w.ledger|)
  {
    UnitLedgerFacts(|Charged(plan, |plan|)|);
    UnitLedgerOk(|Charged(plan, |plan|)|);
  }

  /** The script of the i-th slot, in an honest state. */
  lemma TurnEasy(w: World, plan: seq<Slot>, i: nat, d: Disk, life: Life)
    requires HonestSoak(w, plan, life) && i < |plan| && !Docker(plan[i].key)
    ensures var s := Script(w, d, plan[i], life);
      Easy(w, s, Charged(plan, i)) && Sound(w, s) && Charged(plan, i) + Adds(s) == Charged(plan, i + 1)
  {
    LedgerFacts(w, plan, life);
    ChargedGrows(plan, i + 1, |plan|);
    assert HonestAt(w, plan, life, i);
    TurnOf(w, plan, i, d, life);
  }

  lemma TurnOf(w: World, plan: seq<Slot>, i: nat, d: Disk, life: Life)
    requires PlanOk(w.m, plan) && i < |plan| && !Docker(plan[i].key) && Hex64(w.digest(JOBS.prove))
    requires |Charged(plan, i + 1)| <= |w.ledger| && HonestFor(plan[i].key, |Charged(plan, i)|, |w.ledger|, life)
    ensures var s := Script(w, d, plan[i], life);
      Easy(w, s, Charged(plan, i)) && Sound(w, s) && Charged(plan, i) + Adds(s) == Charged(plan, i + 1)
  {
    NewShare(plan, i);
    SlotEasy(w, d, plan[i], life, Charged(plan, i));
    SlotSound(w, d, plan[i], life);
  }

  lemma NewShare(plan: seq<Slot>, i: nat)
    requires i < |plan| && KeysDistinct(plan)
    ensures FreshShare(plan[i].key, Charged(plan, i))
  {
    forall s | SlotOf(s) == plan[i].key
      ensures s !in Charged(plan, i)
    {
      NotYet(plan, i, s);
    }
  }

  /** Only the restart looks at the journal when it decides what to do. */
  lemma ScriptIsFixed(w: World, d: Disk, slot: Slot, life: Life)
    requires !Docker(slot.key)
    ensures Script(w, d, slot, life) == Script(w, FRESH, slot, life)
  {
  }

  ghost function SlotNeed(w: World, slot: Slot, life: Life): nat
  {
    Need(Script(w, FRESH, slot, life)) + 1
  }

  /** needs lists what each slot takes; it stands for the scripts in what follows. */
  ghost predicate NeedAt(w: World, plan: seq<Slot>, life: Life, needs: seq<nat>, i: nat)
    requires i < |plan| == |needs|
  {
    needs[i] == SlotNeed(w, plan[i], life)
  }

  ghost predicate NeedsOk(w: World, plan: seq<Slot>, life: Life, needs: seq<nat>)
  {
    && |needs| == |plan|
    && forall i {:trigger NeedAt(w, plan, life, needs, i)} :: 0 <= i < |plan| ==> NeedAt(w, plan, life, needs, i)
  }

  /** A generation may go on with the i-th slot. */
  ghost predicate Ready(w: World, plan: seq<Slot>, i: nat, d: Disk)
    requires i <= |plan|
  {
    At(w, plan, i, d) && Unannounced(d)
  }

  /** What a slot leaves: the next one is on, in the same generation, with the resume as verified as before. */
  ghost predicate MovedOn(w: World, plan: seq<Slot>, i: nat, d: Disk, d': Disk)
    requires i <= |plan|
  {
    && Ready(w, plan, i, d') && d'.state.boots == d.state.boots
    && (d.state.resumeVerified ==> d'.state.resumeVerified) && (Silent(d) ==> Silent(d'))
  }

  /** Nothing of the restart has been journaled. */
  ghost predicate Silent(d: Disk)
  {
    !HasId(d.journal, FaultId(DockerHostRestart)) && !HasId(d.journal, RecoveredId(DockerHostRestart))
  }

  /** A finished slot, before its mark. */
  ghost predicate Finishing(w: World, plan: seq<Slot>, i: nat, d: Disk, d': Disk)
    requires i < |plan|
  {
    && Honest(w, d', Charged(plan, i + 1)) && Advanced(d, d') && Unannounced(d') && Evidence(d'.journal, plan[i].key)
  }

  lemma EmitSilent(d: Disk, id: EventId, b: Body)
    requires Silent(d) && !DockerId(id)
    ensures Silent(Emitted(d, id, b))
  {
  }

  lemma {:induction false} EntriesSilent(d: Disk, entries: seq<Entry>, step: Step, kill: nat)
    requires Silent(d)
    ensures Silent(EmitEntries(d, entries, step, kill).disk)
    decreases |entries|
  {
    if entries != [] && kill > 0 {
      var e := entries[0];
      EmitSilent(d, ChargeId(e.chargeId), Charge(e.chargeId, e.usageUnits, e.chargeWei, step));
      EntriesSilent(Emitted(d, ChargeId(e.chargeId), Charge(e.chargeId, e.usageUnits, e.chargeWei, step)),
                    entries[1..], step, kill - 1);
    }
  }

  lemma ActSilent(w: World, d: Disk, a: Action, kill: nat)
    requires Silent(d) && Sound(w, [a])
    ensures Silent(Act(w, d, a, kill).disk)
  {
    match a
    case Emit(id, b) => EmitSilent(d, id, b);
    case Charges(step, from, until, expected) =>
      if kill > 0 && PageAt(w.ledger, from, until, d.state.cursor) {
        EntriesSilent(d, w.ledger[from..until], step, kill - 1);
      }
    case Reconciles(_) => EmitSilent(d, ReconcileId, Reconcile(Usage(d.journal), Wei(d.journal)));
    case _ =>
  }

  /** A workload script says nothing of the restart. */
  lemma {:induction false} ScriptSilent(w: World, d: Disk, script: seq<Action>, kill: nat)
    requires Silent(d) && Sound(w, script)
    ensures Silent(RunScript(w, d, script, kill).disk)
    decreases |script|
  {
    if script != [] {
      assert Sound(w, [script[0]]);
      ActSilent(w, d, script[0], kill);
      var t := Act(w, d, script[0], kill);
      if t.end == Finished {
        assert Sound(w, script[1..]);
        ScriptSilent(w, t.disk, script[1..], t.kill);
      }
    }
  }

  lemma MarkMoves(w: World, plan: seq<Slot>, i: nat, d: Disk, d': Disk, second: nat)
    requires i < |plan| && KeysDistinct(plan) && second >= plan[i].second
    requires TimelineOk(plan, d) && DoneBefore(plan, d, i) && Undone(plan, d, i) && Finishing(w, plan, i, d, d')
    requires Silent(d) ==> Silent(d')
    ensures MovedOn(w, plan, i + 1, d, d'.(state := Marked(d'.state, plan[i].key, second)))
  {
    var d'' := d'.(state := Marked(d'.state, plan[i].key, second));
    TimelineStays(plan, d, d');
    DoneStays(plan, d, d', i);
    MarkOk(w, d', plan, i, second);
    UnannouncedStays(d', d'');
    StillUndone(plan, d, d', i, second);
  }

  lemma StillUndone(plan: seq<Slot>, d: Disk, d': Disk, i: nat, second: nat)
    requires i < |plan| && KeysDistinct(plan) && Undone(plan, d, i) && Advanced(d, d')
    ensures Undone(plan, d'.(state := Marked(d'.state, plan[i].key, second)), i + 1)
  {
  }

  /** A slot whose script has run is marked. */
  lemma MarkTurn(w: World, slot: Slot, d: Disk, d': Disk, life: Life, kill: nat, left: nat)
    requires RunScript(w, d, Script(w, d, slot, life), kill) == Turn(d', Finished, left) && left > 0
    ensures RunSlot(w, slot, d, life, kill)
         == Turn(d'.(state := Marked(d'.state, slot.key, slot.second + life.delay(slot.key))), Finished, left - 1)
  {
    SlotUnfold(w, slot, d, life, kill);
  }

  lemma HonestScript(w: World, plan: seq<Slot>, i: nat, d: Disk, life: Life, kill: nat) returns (d': Disk)
    requires HonestSoak(w, plan, life) && i < |plan| && !Docker(plan[i].key)
    requires Honest(w, d, Charged(plan, i)) && Unannounced(d) && kill >= SlotNeed(w, plan[i], life)
    ensures RunScript(w, d, Script(w, d, plan[i], life), kill)
      == Turn(d', Finished, kill - SlotNeed(w, plan[i], life) + 1)
    ensures Finishing(w, plan, i, d, d') && (Silent(d) ==> Silent(d'))
  {
    var script := Script(w, d, plan[i], life);
    LedgerFacts(w, plan, life);
    ScriptIsFixed(w, d, plan[i], life);
    TurnEasy(w, plan, i, d, life);
    HonestRun(w, d, script, Charged(plan, i), kill);
    SlotCore(w, d, plan[i], life, kill);
    if Silent(d) { ScriptSilent(w, d, script, kill); }
    d' := RunScript(w, d, script, kill).disk;
  }

  /** One slot of an honest soak. */
  lemma HonestSlot(w: World, plan: seq<Slot>, i: nat, d: Disk, life: Life, kill: nat) returns (d': Disk)
    requires HonestSoak(w, plan, life) && i < |plan| && !Docker(plan[i].key)
    requires At(w, plan, i, d) && Unannounced(d) && kill >= SlotNeed(w, plan[i], life)
    ensures RunSlot(w, plan[i], d, life, kill) == Turn(d', Finished, kill - SlotNeed(w, plan[i], life))
    ensures MovedOn(w, plan, i + 1, d, d')
  {
    var slot := plan[i];
    var done := HonestScript(w, plan, i, d, life, kill);
    MarkTurn(w, slot, d, done, life, kill, kill - SlotNeed(w, slot, life) + 1);
    MarkMoves(w, plan, i, d, done, slot.second + life.delay(slot.key));
    d' := done.(state := Marked(done.state, slot.key, slot.second + life.delay(slot.key)));
  }

  /** A slot that starts on time counts no miss. */
  lemma OnTime(w: World, plan: seq<Slot>, i: nat, d: Disk, life: Life, kill: nat, next: Disk, left: nat)
    requires i < |plan| && plan[i].key !in d.state.steps && life.late(plan[i].key) == 0
    requires RunSlot(w, plan[i], d, life, kill) == Turn(next, Finished, left)
    ensures RunSlots(w, plan, i, d, life, kill, 0) == RunSlots(w, plan, i + 1, next, life, left, 0)
  {
  }

  /** From slot i the run goes on at slot j. */
  ghost predicate Went(w: World, plan: seq<Slot>, i: nat, j: nat, d: Disk, d': Disk, life: Life, kill: nat, left: nat)
    requires i <= |plan| && j <= |plan|
  {
    && RunSlots(w, plan, i, d, life, kill, 0) == RunSlots(w, plan, j, d', life, left, 0)
    && MovedOn(w, plan, j, d, d')
  }

  lemma GoOn(w: World, plan: seq<Slot>, i: nat, d: Disk, next: Disk, life: Life, kill: nat, left: nat)
    requires i < |plan| && plan[i].key !in d.state.steps && life.late(plan[i].key) == 0
    requires RunSlot(w, plan[i], d, life, kill) == Turn(next, Finished, left) && MovedOn(w, plan, i + 1, d, next)
    ensures Went(w, plan, i, i + 1, d, next, life, kill, left)
  {
    OnTime(w, plan, i, d, life, kill, next, left);
  }

  lemma NextIsOpen(w: World, plan: seq<Slot>, i: nat, d: Disk, life: Life)
    requires HonestSoak(w, plan, life) && i < |plan| && Ready(w, plan, i, d)
    ensures plan[i].key !in d.state.steps && life.late(plan[i].key) == 0
  {
  }

  /** One slot of an honest soak takes what it needs. */
  lemma TakesItsNeed(w: World, plan: seq<Slot>, i: nat, d: Disk, life: Life, kill: nat, left: nat) returns (next: Disk)
    requires HonestSoak(w, plan, life) && i < |plan| && !Docker(plan[i].key)
    requires Ready(w, plan, i, d) && kill == SlotNeed(w, plan[i], life) + left
    ensures MovedOn(w, plan, i + 1, d, next) && Ready(w, plan, i + 1, next)
    ensures RunSlot(w, plan[i], d, life, kill) == Turn(next, Finished, left)
    ensures plan[i].key !in d.state.steps && life.late(plan[i].key) == 0
  {
    next := HonestSlot(w, plan, i, d, life, kill);
    NextIsOpen(w, plan, i, d, life);
  }

  lemma OneSlot(w: World, plan: seq<Slot>, i: nat, d: Disk, life: Life, kill: nat, need: nat, left: nat)
    returns (next: Disk)
    requires HonestSoak(w, plan, life) && i < |plan| && !Docker(plan[i].key)
    requires Ready(w, plan, i, d) && kill == need + left && need == SlotNeed(w, plan[i], life)
    ensures Went(w, plan, i, i + 1, d, next, life, kill, left) && Ready(w, plan, i + 1, next)
  {
    next := TakesItsNeed(w, plan, i, d, life, kill, left);
    GoOn(w, plan, i, d, next, life, kill, left);
  }

  lemma NextSlot(w: World, plan: seq<Slot>, needs: seq<nat>, i: nat, d: Disk, life: Life, kill: nat, left: nat)
    returns (next: Disk)
    requires HonestSoak(w, plan, life) && NeedsOk(w, plan, life, needs) && i < |plan| && !Docker(plan[i].key)
    requires Ready(w, plan, i, d) && kill == needs[i] + left
    ensures Went(w, plan, i, i + 1, d, next, life, kill, left) && Ready(w, plan, i + 1, next)
  {
    assert NeedAt(w, plan, life, needs, i);
    next := OneSlot(w, plan, i, d, life, kill, needs[i], left);
  }

  lemma MovedThen(w: World, plan: seq<Slot>, i: nat, j: nat, d: Disk, d': Disk, d'': Disk)
    requires i <= |plan| && j <= |plan| && MovedOn(w, plan, i, d, d') && MovedOn(w, plan, j, d', d'')
    ensures MovedOn(w, plan, j, d, d'')
  {
  }

  // ---- many slots: an invariant of the pacer's loop, whatever it is ----

  /** With kills[i] actions left at slot i, the loop is at slot j with kills[j]. */
  ghost predicate Leads(w: World, plan: seq<Slot>, life: Life, kills: seq<nat>, i: nat, d: Disk, j: nat, d': Disk)
    requires i <= |plan| && j <= |plan| && |kills| == |plan| + 1
  {
    RunSlots(w, plan, i, d, life, kills[i], 0) == RunSlots(w, plan, j, d', life, kills[j], 0)
  }

  ghost predicate StepsOn(w: World, plan: seq<Slot>, life: Life, kills: seq<nat>, inv: (nat, Disk) -> bool, i: nat)
    requires i < |plan| && |kills| == |plan| + 1
  {
    forall d :: inv(i, d) ==> exists next :: KeepsOn(w, plan, life, kills, inv, i, d, next)
  }

  ghost predicate KeepsOn(w: World, plan: seq<Slot>, life: Life, kills: seq<nat>, inv: (nat, Disk) -> bool, i: nat,
                          d: Disk, next: Disk)
    requires i < |plan| && |kills| == |plan| + 1
  {
    Leads(w, plan, life, kills, i, d, i + 1, next) && inv(i + 1, next)
  }

  lemma {:induction false} Iterate(w: World, plan: seq<Slot>, life: Life, kills: seq<nat>, inv: (nat, Disk) -> bool,
                                   i: nat, j: nat, d: Disk) returns (d': Disk)
    requires i <= j <= |plan| && |kills| == |plan| + 1 && inv(i, d)
    requires forall k :: i <= k < j ==> StepsOn(w, plan, life, kills, inv, k)
    ensures inv(j, d') && Leads(w, plan, life, kills, i, d, j, d')
    decreases j - i
  {
    if i == j {
      d' := d;
    } else {
      assert StepsOn(w, plan, life, kills, inv, i);
      var next :| KeepsOn(w, plan, life, kills, inv, i, d, next);
      d' := Iterate(w, plan, life, kills, inv, i + 1, j, next);
    }
  }

  ghost predicate NoDocker(plan: seq<Slot>, i: nat, j: nat)
    requires i <= j <= |plan|
  {
    forall k :: i <= k < j ==> !Docker(plan[k].key)
  }

  /** What is left at each slot covers what the slots from there on need. */
  ghost predicate Covers(plan: seq<Slot>, needs: seq<nat>, kills: seq<nat>)
  {
    |needs| == |plan| && |kills| == |plan| + 1 && forall i :: 0 <= i < |plan| ==> kills[i] == needs[i] + kills[i + 1]
  }

  lemma SlotSteps(w: World, plan: seq<Slot>, needs: seq<nat>, kills: seq<nat>, i: nat, start: Disk, d: Disk, life: Life)
    returns (next: Disk)
    requires HonestSoak(w, plan, life) && NeedsOk(w, plan, life, needs) && Covers(plan, needs, kills)
    requires i < |plan| && !Docker(plan[i].key) && MovedOn(w, plan, i, start, d)
    ensures Leads(w, plan, life, kills, i, d, i + 1, next) && MovedOn(w, plan, i + 1, start, next)
  {
    next := NextSlot(w, plan, needs, i, d, life, kills[i], kills[i + 1]);
    MovedThen(w, plan, i, i + 1, start, d, next);
  }

  /** The invariant of a stretch of honest slots. */
  ghost predicate Moves(w: World, plan: seq<Slot>, start: Disk, inv: (nat, Disk) -> bool)
  {
    forall i: nat, d :: inv(i, d) <==> (i <= |plan| && MovedOn(w, plan, i, start, d))
  }

  lemma SlotKeeps(w: World, plan: seq<Slot>, needs: seq<nat>, kills: seq<nat>, i: nat, start: Disk,
                  inv: (nat, Disk) -> bool, life: Life)
    requires HonestSoak(w, plan, life) && NeedsOk(w, plan, life, needs) && Covers(plan, needs, kills)
    requires i < |plan| && !Docker(plan[i].key) && Moves(w, plan, start, inv)
    ensures StepsOn(w, plan, life, kills, inv, i)
  {
    forall d | inv(i, d)
      ensures exists next :: KeepsOn(w, plan, life, kills, inv, i, d, next)
    {
      var next := SlotSteps(w, plan, needs, kills, i, start, d, life);
      assert KeepsOn(w, plan, life, kills, inv, i, d, next);
    }
  }

  /** Honest slots, one after the other. */
  lemma Stretch(w: World, plan: seq<Slot>, needs: seq<nat>, kills: seq<nat>, i: nat, j: nat, d: Disk,
                inv: (nat, Disk) -> bool, life: Life) returns (d': Disk)
    requires HonestSoak(w, plan, life) && NeedsOk(w, plan, life, needs) && Covers(plan, needs, kills)
    requires i <= j <= |plan| && NoDocker(plan, i, j) && Moves(w, plan, d, inv) && inv(i, d)
    ensures Leads(w, plan, life, kills, i, d, j, d') && inv(j, d')
  {
    forall k | i <= k < j
      ensures StepsOn(w, plan, life, kills, inv, k)
    {
      SlotKeeps(w, plan, needs, kills, k, d, inv, life);
    }
    d' := Iterate(w, plan, life, kills, inv, i, j, d);
  }

  /** Slots that are done are skipped. */
  lemma {:induction false} Skip(w: World, plan: seq<Slot>, i: nat, j: nat, d: Disk, life: Life, kill: nat)
    requires i <= j <= |plan| && DoneBefore(plan, d, j)
    ensures RunSlots(w, plan, i, d, life, kill, 0) == RunSlots(w, plan, j, d, life, kill, 0)
    decreases j - i
  {
    if i < j { Skip(w, plan, i + 1, j, d, life, kill); }
  }

  /** A stretch without slots of the restart, from any state a generation may go on from. */
  lemma StretchOn(w: World, plan: seq<Slot>, needs: seq<nat>, kills: seq<nat>, i: nat, j: nat, d: Disk, life: Life)
    returns (d': Disk)
    requires HonestSoak(w, plan, life) && NeedsOk(w, plan, life, needs) && Covers(plan, needs, kills)
    requires i <= j <= |plan| && NoDocker(plan, i, j) && Ready(w, plan, i, d)
    ensures Leads(w, plan, life, kills, i, d, j, d') && MovedOn(w, plan, j, d, d')
  {
    ghost var inv: (nat, Disk) -> bool := (k: nat, e: Disk) => k <= |plan| && MovedOn(w, plan, k, d, e);
    assert MovedOn(w, plan, i, d, d);
    assert Moves(w, plan, d, inv);
    d' := Stretch(w, plan, needs, kills, i, j, d, inv, life);
    assert Moves(w, plan, d, inv);
  }

  // ---- the restart ----

  /** The first generation announces the restart and is killed. */
  lemma HonestAnnounce(w: World, plan: seq<Slot>, i: nat, d: Disk, life: Life, kill: nat)
    requires i < |plan| && Docker(plan[i].key) && plan[i].key !in d.state.steps && Silent(d) && kill > 0
    ensures var f := DockerHostRestart; var d' := Emitted(d, FaultId(f), FaultBegan(f, plan[i].second));
      RunSlots(w, plan, i, d, life, kill, 0).0 == Turn(d', Stopped, 0)
  {
    var f := DockerHostRestart;
    var announce := Emit(FaultId(f), FaultBegan(f, plan[i].second));
    assert Script(w, d, plan[i], life) == [announce] + [AwaitKill];
    RunFirst(w, d, announce, [AwaitKill], kill);
    RunFirst(w, Emitted(d, FaultId(f), FaultBegan(f, plan[i].second)), AwaitKill, [], kill - 1);
    assert [AwaitKill] + [] == [AwaitKill];
  }

  lemma AnnouncedAt(w: World, plan: seq<Slot>, i: nat, d: Disk)
    requires PlanOk(w.m, plan) && i < |plan| && Docker(plan[i].key) && Ready(w, plan, i, d)
    ensures var f := DockerHostRestart; var d' := Emitted(d, FaultId(f), FaultBegan(f, plan[i].second));
      && At(w, plan, i, d') && HasId(d'.journal, FaultId(f)) && d'.state == d.state
      && (Silent(d) ==> !HasId(d'.journal, RecoveredId(f)))
  {
    var f := DockerHostRestart;
    var d' := Emitted(d, FaultId(f), FaultBegan(f, plan[i].second));
    AnnounceCore(w, d);
    HonestEmit(w, d, FaultId(f), FaultBegan(f, plan[i].second), Charged(plan, i));
    TimelineStays(plan, d, d');
  }

  /** The next generation verifies the resume and records the recovery. */
  ghost function Recovered(d: Disk): Disk
  {
    Emitted(d.(state := d.state.(resumeVerified := true)), RecoveredId(DockerHostRestart),
        FaultRecovered(DockerHostRestart))
  }

  lemma HonestResume(w: World, plan: seq<Slot>, i: nat, d: Disk, life: Life, kill: nat)
    requires i < |plan| && Docker(plan[i].key) && life.sealedBytesSame && d.state.boots >= 2 && Finalized(d.journal)
    requires HasId(d.journal, FaultId(DockerHostRestart)) && !HasId(d.journal, RecoveredId(DockerHostRestart))
      && kill >= 5
    ensures RunScript(w, d, Script(w, d, plan[i], life), kill) == Turn(Recovered(d), Finished, kill - 5)
  {
    var f := DockerHostRestart;
    var d' := d.(state := d.state.(resumeVerified := true));
    var recover := [Emit(RecoveredId(f), FaultRecovered(f))];
    ChecksRun(w, d, d.state.boots >= 2, Finalized(d.journal), life.sealedBytesSame, kill);
    RunFirst(w, d, VerifiedResume, recover, kill - 3);
    RunFirst(w, d', Emit(RecoveredId(f), FaultRecovered(f)), [], kill - 4);
    assert recover + [] == recover;
  }

  lemma RecoveredAt(w: World, plan: seq<Slot>, i: nat, d: Disk)
    requires i < |plan| && Docker(plan[i].key) && Ready(w, plan, i, d) && Finalized(d.journal)
    requires HasId(d.journal, FaultId(DockerHostRestart))
    ensures Finishing(w, plan, i, d, Recovered(d)) && Recovered(d).state.resumeVerified
  {
    var f := DockerHostRestart;
    var d' := d.(state := d.state.(resumeVerified := true));
    VerifiedCore(w, d);
    RecoverCore(w, d');
    HonestEmit(w, d', RecoveredId(f), FaultRecovered(f), Charged(plan, i));
    IdsGrow(d.journal, Recovered(d).journal);
    assert Charged(plan, i + 1) == Charged(plan, i) + [] == Charged(plan, i);
  }

  // ---- the two generations ----

  /** What a generation that is not closed runs. */
  lemma WorkerUnfold(w: World, plan: seq<Slot>, d: Disk, life: Life)
    requires ManifestOk(w.m) && plan == Plan(w.m) && !IsClosed(d.journal) && life.kill > 0
    ensures var (t, misses) := RunSlots(w, plan, 0, Rebooted(d), life, life.kill - 1, 0);
      RunWorker(w, d, life)
      == if t.end == Stopped then t.disk else RunScript(w, t.disk, ClosingScript(w, life, misses), t.kill).disk
  {
  }

  /** Where the restart is in the timeline. */
  ghost predicate DockerAt(plan: seq<Slot>, i: nat)
  {
    && i < |plan| && Docker(plan[i].key) && NoDocker(plan, 0, i) && NoDocker(plan, i + 1, |plan|)
    && exists k :: 0 <= k < i && plan[k].key == PulseSlot(0)
  }

  lemma FindDocker(m: Manifest) returns (i: nat)
    requires ManifestOk(m)
    ensures DockerAt(Plan(m), i)
  {
    TimelineShape(m);
    var plan := Plan(m);
    var key := FaultSlot(DockerHostRestart);
    assert Precedes(plan, PulseSlot(0), key);
    var k, j :| 0 <= k < j < |plan| && plan[k].key == PulseSlot(0) && plan[j].key == key;
    i := j;
    OnlyOne(plan, i);
  }

  lemma OnlyOne(plan: seq<Slot>, i: nat)
    requires i < |plan| && KeysDistinct(plan) && Docker(plan[i].key)
    ensures NoDocker(plan, 0, i) && NoDocker(plan, i + 1, |plan|)
  {
  }

  lemma FreshReady(w: World, plan: seq<Slot>, life: Life)
    requires HonestSoak(w, plan, life)
    ensures Ready(w, plan, 0, Rebooted(FRESH)) && Silent(Rebooted(FRESH))
  {
    LedgerFacts(w, plan, life);
  }

  /** A first generation that is killed at its restart, every slot before it done. */
  ghost predicate KilledAtRestart(w: World, plan: seq<Slot>, i: nat, life: Life)
    requires ManifestOk(w.m) && plan == Plan(w.m)
  {
    && DockerAt(plan, i) && life.kill > 0 && DoneBefore(plan, RunWorker(w, FRESH, life), i)
    && RunSlots(w, plan, 0, Rebooted(FRESH), life, life.kill - 1, 0).0 == Turn(RunWorker(w, FRESH, life), Stopped, 0)
  }

  /** The first generation: everything before the restart, and its announcement. */
  lemma FirstGeneration(w: World, plan: seq<Slot>, needs: seq<nat>, kills: seq<nat>, i: nat, life: Life)
    requires ManifestOk(w.m) && plan == Plan(w.m) && HonestSoak(w, plan, life) && NeedsOk(w, plan, life, needs)
    requires Covers(plan, needs, kills) && DockerAt(plan, i) && kills[i] > 0 && life.kill == kills[0] + 1
    ensures var d := RunWorker(w, FRESH, life);
      && At(w, plan, i, d) && HasId(d.journal, FaultId(DockerHostRestart))
      && !HasId(d.journal, RecoveredId(DockerHostRestart)) && d.state.boots == 1
    ensures KilledAtRestart(w, plan, i, life)
  {
    FreshReady(w, plan, life);
    var d := StretchOn(w, plan, needs, kills, 0, i, Rebooted(FRESH), life);
    HonestAnnounce(w, plan, i, d, life, kills[i]);
    AnnouncedAt(w, plan, i, d);
    WorkerUnfold(w, plan, FRESH, life);
  }

  lemma PulseFinalized(w: World, plan: seq<Slot>, i: nat, d: Disk)
    requires DockerAt(plan, i) && At(w, plan, i, d)
    ensures Finalized(d.journal)
  {
    var k :| 0 <= k < i && plan[k].key == PulseSlot(0);
    assert PulseSlot(0) in d.state.steps;
    FinalizedBy(w, d);
  }

  lemma FinalizedBy(w: World, d: Disk)
    requires Core(w, d) && Evidence(d.journal, PulseSlot(0))
    ensures Finalized(d.journal)
  {
    OpenFits(w, d);
    var f := Holds(w, d.journal, FinalizeId(Pulse(0)));
  }

  lemma RebootCore(w: World, d: Disk)
    requires Core(w, d)
    ensures Core(w, Rebooted(d)) && Unannounced(Rebooted(d))
  {
    RestartStays(d, Rebooted(d));
    forall n | 0 <= n < |d.journal|
      ensures d.journal[n].generation < Rebooted(d).state.boots
    {
    }
  }

  lemma RebootReady(w: World, plan: seq<Slot>, i: nat, d: Disk)
    requires i <= |plan| && At(w, plan, i, d)
    ensures Ready(w, plan, i, Rebooted(d))
  {
    RebootCore(w, d);
    TimelineStays(plan, d, Rebooted(d));
  }

  /** ... and the slot marked. */
  ghost function Resumed(d: Disk, key: Key, second: nat): Disk
  {
    Recovered(d).(state := Marked(Recovered(d).state, key, second))
  }

  lemma ResumeMoves(w: World, plan: seq<Slot>, i: nat, d: Disk, second: nat)
    requires i < |plan| && KeysDistinct(plan) && second >= plan[i].second && DockerAt(plan, i) && Ready(w, plan, i, d)
    requires HasId(d.journal, FaultId(DockerHostRestart))
    ensures Ready(w, plan, i + 1, Resumed(d, plan[i].key, second))
      && Resumed(d, plan[i].key, second).state.resumeVerified
  {
    PulseFinalized(w, plan, i, d);
    RecoveredAt(w, plan, i, d);
    MarkMoves(w, plan, i, d, Recovered(d), second);
  }

  lemma ResumeRun(w: World, plan: seq<Slot>, i: nat, d: Disk, life: Life, kill: nat)
    requires i < |plan| && Docker(plan[i].key) && life.sealedBytesSame && d.state.boots >= 2 && Finalized(d.journal)
      && kill >= 6
    requires HasId(d.journal, FaultId(DockerHostRestart)) && !HasId(d.journal, RecoveredId(DockerHostRestart))
    requires plan[i].key !in d.state.steps && life.late(plan[i].key) == 0
    ensures RunSlots(w, plan, i, d, life, kill, 0)
         == RunSlots(w, plan, i + 1, Resumed(d, plan[i].key, plan[i].second + life.delay(plan[i].key)), life, kill - 6,
           0)
  {
    HonestResume(w, plan, i, d, life, kill);
    MarkTurn(w, plan[i], d, Recovered(d), life, kill, kill - 5);
    OnTime(w, plan, i, d, life, kill, Resumed(d, plan[i].key, plan[i].second + life.delay(plan[i].key)), kill - 6);
  }

  // ---- the closure ----

  /** One operation is broadcast once, so its nonce cannot repeat. */
  lemma OneNonce(w: World, d: Disk)
    requires Core(w, d) && OneOperation(d.journal)
    ensures DistinctNonces(d.journal)
  {
    var j := d.journal;
    forall i, k | 0 <= i < k < |j| && j[i].body.Broadcast?
      ensures !j[k].body.Broadcast?
    {
      if j[k].body.Broadcast? { SameBroadcast(w, j[i], j[k]); }
    }
  }

  lemma SameBroadcast(w: World, e: Event, e': Event)
    requires EventFits(w, e) && EventFits(w, e') && e.body.Broadcast? && e'.body.Broadcast?
    requires e.body.operationId == OPERATION == e'.body.operationId
    ensures e.id == e'.id == Some(BroadcastId(OPERATION))
  {
  }

  lemma HonestMayClose(w: World, plan: seq<Slot>, d: Disk, life: Life)
    requires HonestSoak(w, plan, life) && At(w, plan, |plan|, d) && d.state.resumeVerified
    requires w.m.expectedUsage == |w.ledger| && w.m.expectedWei == |w.ledger|
    requires life.finalVisible == |w.ledger| && life.safetyEvents == 0 && life.maxWaitMs == 0
    ensures MayClose(w, d, life, 0)
  {
    LedgerFacts(w, plan, life);
    OneNonce(w, d);
    HonestReconciles(w, d, Charged(plan, |plan|));
    WholePage(w.ledger);
  }

  lemma WholePage(l: Ledger)
    requires l == UnitLedger(|l|) && |l| <= PAGE_LIMIT
    ensures LedgerUsage(FirstPage(l, |l|)) == |l| && LedgerWei(FirstPage(l, |l|)) == |l|
  {
    UnitLedgerFacts(|l|);
    assert l[..|l|] == l;
  }

  /** Up to and through the restart, and then to the end. */
  lemma FinishRun(w: World, plan: seq<Slot>, kills: seq<nat>, i: nat, d: Disk, d': Disk, life: Life)
    requires i < |plan| && |kills| == |plan| + 1 && kills[|plan|] == 5 && Docker(plan[i].key) && DoneBefore(plan, d, i)
    requires life.sealedBytesSame && d.state.boots >= 2 && Finalized(d.journal)
    requires HasId(d.journal, FaultId(DockerHostRestart)) && !HasId(d.journal, RecoveredId(DockerHostRestart))
    requires plan[i].key !in d.state.steps && life.late(plan[i].key) == 0
    requires Leads(w, plan, life, kills, i + 1, Resumed(d, plan[i].key, plan[i].second + life.delay(plan[i].key)),
      |plan|, d')
    ensures RunSlots(w, plan, 0, d, life, kills[i + 1] + 6, 0) == (Turn(d', Finished, 5), 0)
  {
    UpToRestart(w, plan, kills, i, d, life);
    LeadsToEnd(w, plan, life, kills, i + 1, Resumed(d, plan[i].key, plan[i].second + life.delay(plan[i].key)), d');
  }

  lemma UpToRestart(w: World, plan: seq<Slot>, kills: seq<nat>, i: nat, d: Disk, life: Life)
    requires i < |plan| && |kills| == |plan| + 1 && Docker(plan[i].key) && DoneBefore(plan, d, i)
    requires life.sealedBytesSame && d.state.boots >= 2 && Finalized(d.journal)
    requires HasId(d.journal, FaultId(DockerHostRestart)) && !HasId(d.journal, RecoveredId(DockerHostRestart))
    requires plan[i].key !in d.state.steps && life.late(plan[i].key) == 0
    ensures RunSlots(w, plan, 0, d, life, kills[i + 1] + 6, 0)
         == RunSlots(w, plan, i + 1, Resumed(d, plan[i].key, plan[i].second + life.delay(plan[i].key)), life,
           kills[i + 1], 0)
  {
    Skip(w, plan, 0, i, d, life, kills[i + 1] + 6);
    SixMore(w, plan, kills, i, d, life);
  }

  lemma SixMore(w: World, plan: seq<Slot>, kills: seq<nat>, i: nat, d: Disk, life: Life)
    requires i < |plan| && |kills| == |plan| + 1 && Docker(plan[i].key)
    requires life.sealedBytesSame && d.state.boots >= 2 && Finalized(d.journal)
    requires HasId(d.journal, FaultId(DockerHostRestart)) && !HasId(d.journal, RecoveredId(DockerHostRestart))
    requires plan[i].key !in d.state.steps && life.late(plan[i].key) == 0
    ensures RunSlots(w, plan, i, d, life, kills[i + 1] + 6, 0)
         == RunSlots(w, plan, i + 1, Resumed(d, plan[i].key, plan[i].second + life.delay(plan[i].key)), life,
           kills[i + 1], 0)
  {
    ResumeRun(w, plan, i, d, life, kills[i + 1] + 6);
  }

  lemma LeadsToEnd(w: World, plan: seq<Slot>, life: Life, kills: seq<nat>, i: nat, d: Disk, d': Disk)
    requires i <= |plan| && |kills| == |plan| + 1 && Leads(w, plan, life, kills, i, d, |plan|, d')
    ensures RunSlots(w, plan, i, d, life, kills[i], 0) == (Turn(d', Finished, kills[|plan|]), 0)
  {
  }

  /** The second generation, for any invariant that leads to a state that may close. */
  lemma ClosesAfterResume(w: World, plan: seq<Slot>, kills: seq<nat>, inv: (nat, Disk) -> bool, i: nat, d: Disk,
      life: Life)
    requires ManifestOk(w.m) && plan == Plan(w.m) && i < |plan| && |kills| == |plan| + 1 && kills[|plan|] == 5
    requires !IsClosed(d.journal) && life.kill == kills[i + 1] + 7 && d.state.boots == 1
    requires Docker(plan[i].key) && DoneBefore(plan, d, i) && plan[i].key !in d.state.steps
    requires life.sealedBytesSame && life.late(plan[i].key) == 0 && Finalized(d.journal)
    requires HasId(d.journal, FaultId(DockerHostRestart)) && !HasId(d.journal, RecoveredId(DockerHostRestart))
    requires inv(i + 1, Resumed(Rebooted(d), plan[i].key, plan[i].second + life.delay(plan[i].key)))
    requires AllStep(w, plan, life, kills, inv, i + 1) && EndCloses(w, plan, inv, life)
    ensures IsClosed(RunWorker(w, d, life).journal)
  {
    var booted := Rebooted(d);
    var resumed := Resumed(booted, plan[i].key, plan[i].second + life.delay(plan[i].key));
    var finished := Iterate(w, plan, life, kills, inv, i + 1, |plan|, resumed);
    FinishRun(w, plan, kills, i, booted, finished, life);
    WorkerUnfold(w, plan, d, life);
    Closes(w, finished, life);
  }

  /** The invariant after the resume. */
  lemma ResumedMoves(w: World, plan: seq<Slot>, i: nat, d: Disk, resumed: Disk, second: nat, inv: (nat, Disk) -> bool)
    requires i < |plan| && KeysDistinct(plan) && second >= plan[i].second && DockerAt(plan, i) && At(w, plan, i, d)
    requires HasId(d.journal, FaultId(DockerHostRestart)) && resumed == Resumed(Rebooted(d), plan[i].key, second)
    requires Moves(w, plan, resumed, inv)
    ensures inv(i + 1, resumed) && resumed.state.resumeVerified
  {
    RebootReady(w, plan, i, d);
    ResumeMoves(w, plan, i, Rebooted(d), second);
    assert MovedOn(w, plan, i + 1, resumed, resumed);
  }

  ghost predicate AllStep(w: World, plan: seq<Slot>, life: Life, kills: seq<nat>, inv: (nat, Disk) -> bool, i: nat)
    requires |kills| == |plan| + 1
  {
    forall k :: i <= k < |plan| ==> StepsOn(w, plan, life, kills, inv, k)
  }

  ghost predicate EndCloses(w: World, plan: seq<Slot>, inv: (nat, Disk) -> bool, life: Life)
  {
    forall e :: inv(|plan|, e) ==> MayClose(w, e, life, 0)
  }

  lemma EndMayClose(w: World, plan: seq<Slot>, start: Disk, inv: (nat, Disk) -> bool, life: Life)
    requires HonestSoak(w, plan, life) && Moves(w, plan, start, inv) && start.state.resumeVerified
    requires w.m.expectedUsage == |w.ledger| && w.m.expectedWei == |w.ledger|
    requires life.finalVisible == |w.ledger| && life.safetyEvents == 0 && life.maxWaitMs == 0
    ensures EndCloses(w, plan, inv, life)
  {
    forall e | inv(|plan|, e)
      ensures MayClose(w, e, life, 0)
    {
      HonestMayClose(w, plan, e, life);
    }
  }

  lemma SlotsKeep(w: World, plan: seq<Slot>, needs: seq<nat>, kills: seq<nat>, i: nat, start: Disk,
                  inv: (nat, Disk) -> bool, life: Life)
    requires HonestSoak(w, plan, life) && NeedsOk(w, plan, life, needs) && Covers(plan, needs, kills)
    requires i <= |plan| && NoDocker(plan, i, |plan|) && Moves(w, plan, start, inv)
    ensures AllStep(w, plan, life, kills, inv, i)
  {
    forall k | i <= k < |plan|
      ensures StepsOn(w, plan, life, kills, inv, k)
    {
      SlotKeeps(w, plan, needs, kills, k, start, inv, life);
    }
  }

  /** A disk that the next generation can resume. */
  ghost predicate Resumable(plan: seq<Slot>, i: nat, d: Disk)
    requires i < |plan|
  {
    && DoneBefore(plan, d, i) && plan[i].key !in d.state.steps && !IsClosed(d.journal) && d.state.boots == 1
    && Finalized(d.journal) && HasId(d.journal, FaultId(DockerHostRestart))
    && !HasId(d.journal, RecoveredId(DockerHostRestart))
  }

  lemma ResumableFacts(w: World, plan: seq<Slot>, i: nat, d: Disk)
    requires DockerAt(plan, i) && At(w, plan, i, d) && d.state.boots == 1
    requires HasId(d.journal, FaultId(DockerHostRestart)) && !HasId(d.journal, RecoveredId(DockerHostRestart))
    ensures Resumable(plan, i, d)
  {
    PulseFinalized(w, plan, i, d);
  }

  /** The second generation: the resume, the rest of the timeline, and the closure. */
  lemma SecondGeneration(w: World, plan: seq<Slot>, needs: seq<nat>, kills: seq<nat>, i: nat, d: Disk, resumed: Disk,
                         inv: (nat, Disk) -> bool, life: Life)
    requires ManifestOk(w.m) && plan == Plan(w.m) && HonestSoak(w, plan, life) && NeedsOk(w, plan, life, needs)
    requires Covers(plan, needs, kills) && DockerAt(plan, i) && Resumable(plan, i, d)
    requires life.kill == kills[i + 1] + 7 && kills[|plan|] == 5
    requires w.m.expectedUsage == |w.ledger| && w.m.expectedWei == |w.ledger|
    requires life.finalVisible == |w.ledger| && life.safetyEvents == 0 && life.maxWaitMs == 0
    requires resumed == Resumed(Rebooted(d), plan[i].key, plan[i].second + life.delay(plan[i].key))
    requires Moves(w, plan, resumed, inv) && inv(i + 1, resumed) && resumed.state.resumeVerified
    ensures IsClosed(RunWorker(w, d, life).journal)
  {
    SlotsKeep(w, plan, needs, kills, i + 1, resumed, inv, life);
    EndMayClose(w, plan, resumed, inv, life);
    ClosesAfterResume(w, plan, kills, inv, i, d, life);
  }

  lemma Closes(w: World, d: Disk, life: Life)
    requires MayClose(w, d, life, 0)
    ensures IsClosed(RunScript(w, d, ClosingScript(w, life, 0), 5).disk.journal)
  {
    ClosesExactly(w, d, life, 0, 5);
    ClosedOneMore(d.journal, ClosureEvent(w, d.journal, w.m.durationSeconds + life.finalDelay, d.state.boots));
  }

  // ---- the soak that closes ----

  /** The answers of honest services to a whole soak. */
  ghost function HonestLife(plan: seq<Slot>, total: nat): Life
  {
    Life(
      (i: nat) => HonestPulse(StartOf(plan, PulseSlot(i))),
      (i: nat) => AggregateFrom(StartOf(plan, AggregateSlot(i))),
      HonestSponsor(StartOf(plan, SponsorSlot)), HonestWithdraw(StartOf(plan, WithdrawSlot)),
      Page(total, total), total, true, k => 0, k => 0, total, 0, 0, 0, 0)
  }

  function AggregateFrom(start: nat): AggregateAnswers
  {
    AggregateAnswers(
      n => MemberAnswers([], JOBS), OP, Page(start, start + 1), n => "blob", JOBS.prove, OP,
      AGGREGATE_SELECTOR, 3, 8, 6, 7, 1, Page(start + 1, start + 8))
  }

  /** Where a key is in the plan. */
  ghost function Place(plan: seq<Slot>, k: Key): (i: nat)
    ensures i <= |plan| && (HasKey(plan, k) ==> i < |plan| && plan[i].key == k)
  {
    if HasKey(plan, k) then
      var i :| 0 <= i < |plan| && plan[i].key == k;
      i
    else 0
  }

  /** The charges before a slot's turn. */
  ghost function StartOf(plan: seq<Slot>, k: Key): nat
  {
    |Charged(plan, Place(plan, k))|
  }

  lemma PlaceAt(plan: seq<Slot>, i: nat)
    requires i < |plan| && KeysDistinct(plan)
    ensures Place(plan, plan[i].key) == i
  {
    assert HasKey(plan, plan[i].key);
  }

  lemma AfterReconcile(plan: seq<Slot>, i: nat, k: nat)
    requires KeysDistinct(plan) && i <= k < |plan| && plan[i].key == ReconcileSlot
    ensures !Precedes(plan, plan[k].key, ReconcileSlot)
  {
  }

  /** Nothing is charged after the reconciliation. */
  lemma ReconciledAll(m: Manifest, plan: seq<Slot>, i: nat)
    requires ManifestOk(m) && plan == Plan(m) && i < |plan| && plan[i].key == ReconcileSlot
    ensures |Charged(plan, i)| == |Charged(plan, |plan|)|
  {
    TimelineShape(m);
    forall k | i <= k < |plan|
      ensures Share(plan[k].key) == []
    {
      assert HasKey(plan, plan[k].key);
      AfterReconcile(plan, i, k);
      assert Charging(plan[k].key) <==> Share(plan[k].key) != [];
    }
    NoShare(plan, i, |plan|);
  }

  lemma {:induction false} NoShare(plan: seq<Slot>, i: nat, j: nat)
    requires i <= j <= |plan| && forall k :: i <= k < j ==> Share(plan[k].key) == []
    ensures |Charged(plan, j)| == |Charged(plan, i)|
    decreases j - i
  {
    if i < j { NoShare(plan, i, j - 1); }
  }

  /** How much an honest soak charges. */
  ghost function ChargeTotal(m: Manifest): nat
    requires ManifestOk(m)
  {
    |Charged(Plan(m), |Plan(m)|)|
  }

  lemma AnswersHonest(plan: seq<Slot>, total: nat, i: nat)
    requires i < |plan| && KeysDistinct(plan) && (plan[i].key == ReconcileSlot ==> |Charged(plan, i)| == total)
    ensures HonestFor(plan[i].key, |Charged(plan, i)|, total, HonestLife(plan, total))
  {
    PlaceAt(plan, i);
  }

  lemma TotalIsSmall(m: Manifest, plan: seq<Slot>)
    requires ManifestOk(m) && plan == Plan(m)
    ensures |Charged(plan, |plan|)| <= PAGE_LIMIT
  {
    PlanFacts(m);
    ChargedGrows(plan, 0, |plan|);
  }

  lemma LifeIsHonest(w: World, plan: seq<Slot>)
    requires ManifestOk(w.m) && plan == Plan(w.m) && w.ledger == UnitLedger(|Charged(plan, |plan|)|)
    requires Hex64(w.digest(JOBS.prove))
    ensures HonestSoak(w, plan, HonestLife(plan, |w.ledger|))
  {
    var life := HonestLife(plan, |w.ledger|);
    PlanIsOk(w.m);
    TotalIsSmall(w.m, plan);
    UnitLedgerFacts(|Charged(plan, |plan|)|);
    forall i | 0 <= i < |plan|
      ensures HonestAt(w, plan, life, i)
    {
      if plan[i].key == ReconcileSlot { ReconciledAll(w.m, plan, i); }
      AnswersHonest(plan, |w.ledger|, i);
    }
  }

  /** The length of a life does not matter to its scripts. */
  lemma KillApart(w: World, plan: seq<Slot>, life: Life, needs: seq<nat>, kill: nat)
    requires HonestSoak(w, plan, life) && NeedsOk(w, plan, life, needs)
    ensures HonestSoak(w, plan, life.(kill := kill)) && NeedsOk(w, plan, life.(kill := kill), needs)
  {
    var other := life.(kill := kill);
    forall i | 0 <= i < |plan|
      ensures HonestAt(w, plan, other, i) && NeedAt(w, plan, other, needs, i)
    {
      assert HonestAt(w, plan, life, i) && NeedAt(w, plan, life, needs, i);
      SameScript(w, plan[i], life, kill);
    }
  }

  lemma SameScript(w: World, slot: Slot, life: Life, kill: nat)
    ensures Script(w, FRESH, slot, life.(kill := kill)) == Script(w, FRESH, slot, life)
  {
  }

  // ---- what each slot needs, and what is left of a life at each slot ----

  lemma {:induction false} FindNeeds(w: World, plan: seq<Slot>, life: Life, n: nat) returns (needs: seq<nat>)
    requires n <= |plan|
    ensures |needs| == n && forall i :: 0 <= i < n ==> needs[i] == SlotNeed(w, plan[i], life)
  {
    if n == 0 {
      needs := [];
    } else {
      var before := FindNeeds(w, plan, life, n - 1);
      needs := before + [SlotNeed(w, plan[n - 1], life)];
    }
  }

  /** What must be left at each slot for the rest of the timeline. */
  lemma {:induction false} FindKills(needs: seq<nat>, last: nat) returns (kills: seq<nat>)
    ensures |kills| == |needs| + 1 && kills[|needs|] == last
    ensures forall i :: 0 <= i < |needs| ==> kills[i] == needs[i] + kills[i + 1]
    decreases |needs|
  {
    if needs == [] {
      kills := [last];
    } else {
      var rest := FindKills(needs[1..], last);
      kills := [needs[0] + rest[0]] + rest;
    }
  }

  lemma NeedsFound(w: World, plan: seq<Slot>, life: Life) returns (needs: seq<nat>)
    ensures NeedsOk(w, plan, life, needs)
  {
    needs := FindNeeds(w, plan, life, |plan|);
  }

  lemma KillsFound(plan: seq<Slot>, needs: seq<nat>) returns (kills: seq<nat>)
    requires |needs| == |plan|
    ensures Covers(plan, needs, kills) && kills[|plan|] == 5
    ensures forall i :: 0 <= i <= |plan| ==> kills[i] > 0
  {
    kills := FindKills(needs, 5);
    KillsPositive(needs, kills, 0);
  }

  lemma {:induction false} KillsPositive(needs: seq<nat>, kills: seq<nat>, i: nat)
    requires |kills| == |needs| + 1 && kills[|needs|] == 5 && i <= |needs|
    requires forall k :: 0 <= k < |needs| ==> kills[k] == needs[k] + kills[k + 1]
    ensures forall k :: i <= k <= |needs| ==> kills[k] > 0
    decreases |needs| - i
  {
    if i < |needs| {
      KillsPositive(needs, kills, i + 1);
      assert kills[i] == needs[i] + kills[i + 1] && kills[i + 1] > 0;
    }
  }

  lemma DistinctOf(w: World, plan: seq<Slot>, life: Life)
    requires HonestSoak(w, plan, life)
    ensures KeysDistinct(plan)
  {
  }

  /**
   The soak can be closed. For every manifest, if the ledger grows by the charges of the plan and the
   services answer as they should, a first generation runs up to the restart and is killed, and a second
   one verifies the resume, runs the rest and writes the closure.
   */
  lemma HonestSoakCloses(w: World) returns (first: Life, second: Life, restart: nat)
    requires ManifestOk(w.m) && w.ledger == UnitLedger(ChargeTotal(w.m)) && Hex64(w.digest(JOBS.prove))
    requires w.m.expectedUsage == ChargeTotal(w.m) && w.m.expectedWei == ChargeTotal(w.m)
    ensures KilledAtRestart(w, Plan(w.m), restart, first) && !IsClosed(RunWorker(w, FRESH, first).journal)
    ensures IsClosed(RunWorker(w, RunWorker(w, FRESH, first), second).journal)
  {
    var plan := Plan(w.m);
    UnitLedgerFacts(ChargeTotal(w.m));
    var life := HonestLife(plan, |w.ledger|);
    LifeIsHonest(w, plan);
    var needs := NeedsFound(w, plan, life);
    var kills := KillsFound(plan, needs);
    var i := FindDocker(w.m);
    restart := i;
    first, second := life.(kill := kills[0] + 1), life.(kill := kills[i + 1] + 7);
    KillApart(w, plan, life, needs, first.kill);
    KillApart(w, plan, life, needs, second.kill);
    FirstGeneration(w, plan, needs, kills, i, first);
    var d := RunWorker(w, FRESH, first);
    var resumed := Resumed(Rebooted(d), plan[i].key, plan[i].second + second.delay(plan[i].key));
    ghost var inv: (nat, Disk) -> bool := (k: nat, e: Disk) => k <= |plan| && MovedOn(w, plan, k, resumed, e);
    assert Moves(w, plan, resumed, inv);
    ResumableFacts(w, plan, i, d);
    DistinctOf(w, plan, second);
    ResumedMoves(w, plan, i, d, resumed, plan[i].second + second.delay(plan[i].key), inv);
    SecondGeneration(w, plan, needs, kills, i, d, resumed, inv, second);
  }

  lemma FirstLife(w: World, d: Disk, life: Life, rest: seq<Life>)
    requires ManifestOk(w.m)
    ensures RunLives(w, d, [life] + rest) == RunLives(w, RunWorker(w, d, life), rest)
  {
    assert ([life] + rest)[1..] == rest;
  }

  lemma TwoLives(w: World, d: Disk, first: Life, second: Life)
    requires ManifestOk(w.m)
    ensures RunLives(w, d, [first] + ([second] + [])) == RunWorker(w, RunWorker(w, d, first), second)
  {
    FirstLife(w, d, first, [second] + []);
    FirstLife(w, RunWorker(w, d, first), second, []);
  }

  /** ... and the independent verifier accepts what it wrote. */
  lemma HonestSoakAccepted(w: World) returns (lives: seq<Life>)
    requires ManifestOk(w.m) && w.ledger == UnitLedger(ChargeTotal(w.m)) && Hex64(w.digest(JOBS.prove))
    requires w.m.expectedUsage == ChargeTotal(w.m) && w.m.expectedWei == ChargeTotal(w.m)
    ensures |lives| == 2 && IsClosed(RunLives(w, FRESH, lives).journal)
    ensures Accepts(w.m, w.h, RunLives(w, FRESH, lives).journal)
  {
    var first, second, restart := HonestSoakCloses(w);
    lives := [first] + ([second] + []);
    TwoLives(w, FRESH, first, second);
    UnitLedgerOk(ChargeTotal(w.m));
    DriverVerifierAgreement(w, lives);
  }
}
