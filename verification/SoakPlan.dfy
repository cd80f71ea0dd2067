/** The soak timeline of owner-soak-driver/zkdeal_owner_soak.py: build_plan and its order. */
module SoakPlan {
  import opened SoakEvents

  datatype Key =
    | SetupSlot
    | PulseSlot(index: nat)
    | AggregateSlot(index: nat)
    | SponsorSlot | WithdrawSlot
    | FaultSlot(fault: Fault)
    | ReconcileSlot

  datatype Slot = Slot(second: nat, order: nat, key: Key)

  const PULSE_COUNT: nat := 36

  /** Alphabetical rank of the fault names, which is also the rank of their slot keys. */
  function FaultRank(f: Fault): nat
  {
    match f
    case CoordinatorPromotion => 0
    case DatabaseRestart => 1
    case DockerHostRestart => 2
    case HeadlessRestart => 3
    case IndexerRollback => 4
    case ObjectStoreRestart => 5
    case ProverRestart => 6
    case RpcSplit => 7
  }

  /** Keys are only compared between slots of the same order, where the texts differ in this number. */
  function KeyRank(k: Key): nat
  {
    match k
    case PulseSlot(i) => i
    case AggregateSlot(i) => i
    case FaultSlot(f) => FaultRank(f)
    case _ => 0
  }

  /** key=lambda slot: (slot.second, slot.order, slot.key) */
  predicate Before(a: Slot, b: Slot)
  {
    a.second < b.second ||
    (a.second == b.second &&
     (a.order < b.order || (a.order == b.order && KeyRank(a.key) < KeyRank(b.key))))
  }

  function Max(a: int, b: int): int { if a > b then a else b }

  function Min(a: int, b: int): int { if a < b then a else b }

  /** The three aggregate seconds after both adjustments, in the order they are written. */
  function AggregateSeconds(duration: nat, docker: nat): (s: seq<nat>)
    requires duration >= 60
    ensures |s| == 3
  {
    var s0 := [duration / 12, duration / 2, duration * 7 / 8];
    var s1 := if s0[0] < docker || s0[1] < docker || s0[2] < docker then s0
              else s0[0 := Max(0, docker - 60)];
    if s1[0] > docker || s1[1] > docker || s1[2] > docker then s1
    else s1[2 := Min(duration - 60, docker + 60)]
  }

  /** sorted(...) of the three. */
  function Sort3(s: seq<nat>): (r: seq<nat>)
    requires |s| == 3
    ensures |r| == 3 && r[0] <= r[1] <= r[2] && forall x :: x in r <==> x in s
  {
    var a, b, c := s[0], s[1], s[2];
    if a <= b <= c then [a, b, c]
    else if a <= c <= b then [a, c, b]
    else if b <= a <= c then [b, a, c]
    else if b <= c <= a then [b, c, a]
    else if c <= a <= b then [c, a, b]
    else [c, b, a]
  }

  /** The slots in the order build_plan appends them. */
  function PulseSlots(duration: nat, n: nat): seq<Slot>
  {
    if n == 0 then []
    else PulseSlots(duration, n - 1) + [Slot((n - 1) * Interval(duration), 1, PulseSlot(n - 1))]
  }

  function Interval(duration: nat): nat
  {
    if duration / PULSE_COUNT > 1 then duration / PULSE_COUNT else 1
  }

  const FAULTS := [
    CoordinatorPromotion, DatabaseRestart, DockerHostRestart, HeadlessRestart,
    IndexerRollback, ObjectStoreRestart, ProverRestart, RpcSplit]

  function FaultSlots(m: Manifest, faults: seq<Fault>): seq<Slot>
    requires forall f: Fault :: f in m.faults
  {
    if faults == [] then []
    else [Slot(m.faults[faults[0]], 5, FaultSlot(faults[0]))] + FaultSlots(m, faults[1..])
  }

  function Unsorted(m: Manifest): seq<Slot>
    requires ManifestOk(m)
  {
    var d := m.durationSeconds;
    var seconds := Sort3(AggregateSeconds(d, m.faults[DockerHostRestart]));
    [Slot(0, 0, SetupSlot)]
    + PulseSlots(d, PULSE_COUNT)
    + [Slot(seconds[0], 2, AggregateSlot(0)), Slot(seconds[1], 2, AggregateSlot(1)),
        Slot(seconds[2], 2, AggregateSlot(2))]
    + [Slot(d / 3, 3, SponsorSlot), Slot(d * 2 / 3, 4, WithdrawSlot)]
    + FaultSlots(m, FAULTS)
    + [Slot(d - 60, 6, ReconcileSlot)]
  }

  /** sorted(), as an insertion into place. */
  function Insert(s: Slot, plan: seq<Slot>): seq<Slot>
  {
    if plan == [] then [s]
    else if Before(plan[0], s) then [plan[0]] + Insert(s, plan[1..])
    else [s] + plan
  }

  function SortSlots(slots: seq<Slot>): seq<Slot>
  {
    if slots == [] then [] else Insert(slots[0], SortSlots(slots[1..]))
  }

  function Plan(m: Manifest): seq<Slot>
    requires ManifestOk(m)
  {
    SortSlots(Unsorted(m))
  }

  // ---- sorting keeps the slots and orders them ----

  ghost predicate KeysDistinct(plan: seq<Slot>)
  {
    forall i, j :: 0 <= i < j < |plan| ==> plan[i].key != plan[j].key
  }

  ghost predicate Ordered(plan: seq<Slot>)
  {
    forall i, j :: 0 <= i < j < |plan| ==> !Before(plan[j], plan[i])
  }

  ghost predicate HasKey(plan: seq<Slot>, k: Key)
  {
    exists i :: 0 <= i < |plan| && plan[i].key == k
  }

  lemma {:induction false} InsertFacts(s: Slot, plan: seq<Slot>)
    requires Ordered(plan)
    ensures Ordered(Insert(s, plan)) && |Insert(s, plan)| == |plan| + 1
    ensures forall x :: x in Insert(s, plan) <==> x == s || x in plan
    ensures KeysDistinct(plan) && !HasKey(plan, s.key) ==> KeysDistinct(Insert(s, plan))
  {
    var out := Insert(s, plan);
    if plan != [] && Before(plan[0], s) {
      InsertFacts(s, plan[1..]);
      var rest := Insert(s, plan[1..]);
      assert out == [plan[0]] + rest && plan == [plan[0]] + plan[1..];
      forall i, j | 0 <= i < j < |out|
        ensures !Before(out[j], out[i])
        ensures KeysDistinct(plan) && !HasKey(plan, s.key) ==> out[i].key != out[j].key
      {
        assert out[j] == rest[j - 1] && out[j] in rest;
        if i > 0 { assert out[i] == rest[i - 1]; }
        if KeysDistinct(plan) && !HasKey(plan, s.key) { assert !HasKey(plan[1..], s.key); }
      }
    } else {
      assert out == [s] + plan;
      forall i, j | 0 <= i < j < |out|
        ensures !Before(out[j], out[i])
      {
        assert out[j] == plan[j - 1];
        if i > 0 { assert out[i] == plan[i - 1]; }
      }
    }
  }

  lemma {:induction false} SortFacts(slots: seq<Slot>)
    ensures Ordered(SortSlots(slots)) && |SortSlots(slots)| == |slots|
    ensures forall x :: x in SortSlots(slots) <==> x in slots
    ensures KeysDistinct(slots) ==> KeysDistinct(SortSlots(slots))
  {
    if slots != [] {
      SortFacts(slots[1..]);
      InsertFacts(slots[0], SortSlots(slots[1..]));
      assert slots == [slots[0]] + slots[1..];
      if KeysDistinct(slots) {
        forall x | x in slots[1..]
          ensures x.key != slots[0].key
        {
        }
        assert !HasKey(SortSlots(slots[1..]), slots[0].key);
      }
    }
  }

  // ---- what the timeline contains ----

  lemma {:induction false} PulsesOf(duration: nat, n: nat)
    ensures |PulseSlots(duration, n)| == n
    ensures forall i :: 0 <= i < n ==>
      PulseSlots(duration, n)[i] == Slot(i * Interval(duration), 1, PulseSlot(i))
  {
    if n > 0 { PulsesOf(duration, n - 1); }
  }

  lemma {:induction false} FaultsFrom(m: Manifest, faults: seq<Fault>)
    requires forall f: Fault :: f in m.faults
    ensures |FaultSlots(m, faults)| == |faults|
    ensures forall i :: 0 <= i < |faults| ==>
      FaultSlots(m, faults)[i] == Slot(m.faults[faults[i]], 5, FaultSlot(faults[i]))
  {
    if faults != [] { FaultsFrom(m, faults[1..]); }
  }

  /** The second and order of each slot, by its key. */
  ghost function Timing(m: Manifest, k: Key): (int, int)
    requires ManifestOk(m)
  {
    var d := m.durationSeconds;
    match k
    case SetupSlot => (0, 0)
    case PulseSlot(i) => (i * Interval(d), 1)
    case AggregateSlot(i) =>
      (if i < 3 then Sort3(AggregateSeconds(d, m.faults[DockerHostRestart]))[i] else 0, 2)
    case SponsorSlot => (d / 3, 3)
    case WithdrawSlot => (d * 2 / 3, 4)
    case FaultSlot(f) => (m.faults[f], 5)
    case ReconcileSlot => (d - 60, 6)
  }

  /** The keys of the timeline. */
  ghost predicate Planned(k: Key)
  {
    match k
    case PulseSlot(i) => i < PULSE_COUNT
    case AggregateSlot(i) => i < 3
    case _ => true
  }

  /** The key of the i-th slot appended, and back. */
  ghost function KeyAt(i: int): Key
  {
    if i == 0 then SetupSlot
    else if 0 < i <= 36 then PulseSlot(i - 1)
    else if 36 < i <= 39 then AggregateSlot(i - 37)
    else if i == 40 then SponsorSlot
    else if i == 41 then WithdrawSlot
    else if 42 <= i <= 49 then FaultSlot(FAULTS[i - 42])
    else ReconcileSlot
  }

  ghost function IndexOf(k: Key): int
  {
    match k
    case SetupSlot => 0
    case PulseSlot(i) => i + 1
    case AggregateSlot(i) => i + 37
    case SponsorSlot => 40
    case WithdrawSlot => 41
    case FaultSlot(f) => 42 + FaultRank(f)
    case ReconcileSlot => 50
  }

  lemma KeysNumbered()
    ensures forall i :: 0 <= i <= 50 ==> IndexOf(KeyAt(i)) == i && Planned(KeyAt(i))
    ensures forall k :: Planned(k) ==> 0 <= IndexOf(k) <= 50 && KeyAt(IndexOf(k)) == k
  {
    forall i | 0 <= i < 8
      ensures FaultRank(FAULTS[i]) == i
    {
    }
  }

  /** build_plan appends one slot per planned key. */
  lemma SlotAt(m: Manifest, i: int)
    requires ManifestOk(m) && 0 <= i <= 50
    ensures |Unsorted(m)| == 51
    ensures Unsorted(m)[i].key == KeyAt(i)
    ensures (Unsorted(m)[i].second, Unsorted(m)[i].order) == Timing(m, KeyAt(i))
  {
    var d := m.durationSeconds;
    PulsesOf(d, PULSE_COUNT);
    FaultsFrom(m, FAULTS);
    if 0 < i <= 36 { assert Unsorted(m)[i] == PulseSlots(d, PULSE_COUNT)[i - 1]; }
    if 42 <= i <= 49 { assert Unsorted(m)[i] == FaultSlots(m, FAULTS)[i - 42]; }
  }

  /** The timeline holds exactly the planned slots, each once, in order. */
  lemma PlanFacts(m: Manifest)
    requires ManifestOk(m)
    ensures var plan := Plan(m);
      && |plan| == 51 && KeysDistinct(plan) && Ordered(plan)
      && (forall s :: s in plan ==> Planned(s.key) && (s.second, s.order) == Timing(m, s.key))
      && (forall k :: Planned(k) ==> HasKey(plan, k))
  {
    var u := Unsorted(m);
    KeysNumbered();
    forall i | 0 <= i <= 50
      ensures |u| == 51 && u[i].key == KeyAt(i) && (u[i].second, u[i].order) == Timing(m, KeyAt(i))
    {
      SlotAt(m, i);
    }
    assert |u| == 51 by { SlotAt(m, 0); }
    SortFacts(u);
    forall k | Planned(k)
      ensures HasKey(Plan(m), k)
    {
      assert u[IndexOf(k)] in Plan(m);
    }
  }

  /** The aggregates are at a twelfth, a half and seven eighths, unless all of them miss one side of the restart. */
  lemma AggregatesAt(d: nat, docker: nat)
    requires 43200 <= d && docker < d
    ensures Sort3(AggregateSeconds(d, docker)) == [
      if docker > d / 12 then d / 12 else if docker > 60 then docker - 60 else 0,
      d / 2,
      if docker < 7 * d / 8 then 7 * d / 8 else if docker + 60 < d - 60 then docker + 60 else d - 60]
  {
  }

  /** When each slot of the timeline is due. */
  lemma SlotTimes(m: Manifest, s: Slot)
    requires ManifestOk(m) && s in Plan(m)
    ensures var (d, docker) := (m.durationSeconds, m.faults[DockerHostRestart]);
      match s.key
      case SetupSlot => s.second == 0
      case PulseSlot(i) => i < 36 && s.second == i * (d / 36)
      case AggregateSlot(i) =>
        && i < 3
        && (i == 0 ==> s.second == if docker > d / 12 then d / 12 else if docker > 60 then docker - 60 else 0)
        && (i == 1 ==> s.second == d / 2)
        && (i == 2 && docker < 7 * d / 8 ==> s.second == 7 * d / 8)
        && (i == 2 && docker >= 7 * d / 8 ==> s.second == if docker + 60 < d - 60 then docker + 60 else d - 60)
      case SponsorSlot => s.second == d / 3
      case WithdrawSlot => s.second == 2 * d / 3
      case FaultSlot(f) => s.second == m.faults[f]
      case ReconcileSlot => s.second == d - 60
  {
    PlanFacts(m);
    AggregatesAt(m.durationSeconds, m.faults[DockerHostRestart]);
  }

  /** Setup, pulses, aggregates, sponsorship, withdrawal, faults, reconciliation. */
  ghost function Rank(k: Key): nat
  {
    match k
    case SetupSlot => 0
    case PulseSlot(_) => 1
    case AggregateSlot(_) => 2
    case SponsorSlot => 3
    case WithdrawSlot => 4
    case FaultSlot(_) => 5
    case ReconcileSlot => 6
  }

  /** Slots of one second run in that order. */
  lemma SameSecond(m: Manifest, a: Slot, b: Slot)
    requires ManifestOk(m) && a in Plan(m) && b in Plan(m) && a.second == b.second && Rank(a.key) < Rank(b.key)
    ensures Precedes(Plan(m), a.key, b.key) && !Precedes(Plan(m), b.key, a.key)
  {
    PlanFacts(m);
    EarlierPrecedes(m, a.key, b.key);
  }

  // ---- what comes before what ----

  ghost predicate Precedes(plan: seq<Slot>, a: Key, b: Key)
  {
    exists i, j :: 0 <= i < j < |plan| && plan[i].key == a && plan[j].key == b
  }

  /** In the timeline, the earlier of two planned slots stands before the other. */
  lemma EarlierPrecedes(m: Manifest, a: Key, b: Key)
    requires ManifestOk(m) && Planned(a) && Planned(b) && a != b
    requires var (ta, tb) := (Timing(m, a), Timing(m, b)); ta.0 < tb.0 || (ta.0 == tb.0 && ta.1 < tb.1)
    ensures Precedes(Plan(m), a, b)
    ensures !Precedes(Plan(m), b, a)
  {
    PlanFacts(m);
    var plan := Plan(m);
    var i :| 0 <= i < |plan| && plan[i].key == a;
    var j :| 0 <= j < |plan| && plan[j].key == b;
    assert plan[i] in plan && plan[j] in plan;
    assert Before(plan[i], plan[j]);
    assert i < j;
    forall k, l | 0 <= k < l < |plan|
      ensures !(plan[k].key == b && plan[l].key == a)
    {
    }
  }

  /** The steps that charge. */
  ghost predicate Charging(k: Key)
  {
    k.PulseSlot? || k.AggregateSlot? || k.SponsorSlot? || k.WithdrawSlot?
  }

  lemma AggregateBounds(d: nat, docker: nat)
    requires 43200 <= d && docker < d
    ensures forall x :: x in Sort3(AggregateSeconds(d, docker)) ==> x <= d - 60
    ensures exists x :: x in Sort3(AggregateSeconds(d, docker)) && x <= docker
    ensures (exists x :: x in Sort3(AggregateSeconds(d, docker)) && x > docker) <==> docker < d - 60
  {
    var s := AggregateSeconds(d, docker);
    var r := Sort3(s);
    assert s[0] in r && s[1] in r && s[2] in r;
    forall x | x in r
      ensures x == s[0] || x == s[1] || x == s[2]
    {
      assert x in s;
    }
    assert s[0] <= docker;
    assert s[0] <= d - 60 && s[1] <= d - 60 && s[2] <= d - 60;
    assert (s[0] > docker || s[1] > docker || s[2] > docker) <==> docker < d - 60;
  }

  lemma PulseSeconds(d: nat, i: nat)
    requires 43200 <= d && i < PULSE_COUNT
    ensures i * Interval(d) < d - 60
  {
    assert Interval(d) == d / 36;
    assert i * Interval(d) <= 35 * Interval(d) by {
      assert 35 * Interval(d) - i * Interval(d) == (35 - i) * Interval(d);
    }
  }

  lemma PlanKeys(m: Manifest)
    requires ManifestOk(m)
    ensures forall k :: HasKey(Plan(m), k) <==> Planned(k)
  {
    PlanFacts(m);
    forall k | HasKey(Plan(m), k)
      ensures Planned(k)
    {
      var i :| 0 <= i < |Plan(m)| && Plan(m)[i].key == k;
      assert Plan(m)[i] in Plan(m);
    }
  }

  /**
   The shape of the timeline, for every admissible duration and schedule. The restart of the docker
   host always has an aggregate before it, and one after it exactly when it is scheduled earlier than
   sixty seconds before the end.
   */
  lemma TimelineShape(m: Manifest)
    requires ManifestOk(m)
    ensures KeysDistinct(Plan(m)) && forall k :: HasKey(Plan(m), k) <==> Planned(k)
    ensures Plan(m) != [] && Plan(m)[0].key == SetupSlot
    ensures forall f :: Precedes(Plan(m), PulseSlot(0), FaultSlot(f))
    ensures forall k :: Planned(k) && Charging(k) ==> Precedes(Plan(m), k, ReconcileSlot)
    ensures exists i :: Precedes(Plan(m), AggregateSlot(i), FaultSlot(DockerHostRestart))
    ensures (exists i :: Precedes(Plan(m), FaultSlot(DockerHostRestart), AggregateSlot(i)))
       <==> m.faults[DockerHostRestart] < m.durationSeconds - 60
  {
    PlanKeys(m);
    assert KeysDistinct(Plan(m)) by { PlanFacts(m); }
    SetupFirst(m);
    forall f
      ensures Precedes(Plan(m), PulseSlot(0), FaultSlot(f))
    {
      EarlierPrecedes(m, PulseSlot(0), FaultSlot(f));
    }
    forall k | Planned(k) && Charging(k)
      ensures Precedes(Plan(m), k, ReconcileSlot)
    {
      ChargesFirst(m, k);
    }
    DockerBracket(m);
  }

  lemma SetupFirst(m: Manifest)
    requires ManifestOk(m)
    ensures Plan(m) != [] && Plan(m)[0].key == SetupSlot
  {
    PlanFacts(m);
    var plan := Plan(m);
    var first := plan[0].key;
    assert plan[0] in plan;
    if first != SetupSlot {
      EarlierPrecedes(m, SetupSlot, first);
    }
  }

  lemma ChargesFirst(m: Manifest, k: Key)
    requires ManifestOk(m) && Planned(k) && Charging(k)
    ensures Precedes(Plan(m), k, ReconcileSlot)
  {
    var d := m.durationSeconds;
    var r := Sort3(AggregateSeconds(d, m.faults[DockerHostRestart]));
    AggregateBounds(d, m.faults[DockerHostRestart]);
    match k {
      case PulseSlot(i) => PulseSeconds(d, i);
      case AggregateSlot(i) => assert r[i] in r;
      case _ =>
    }
    EarlierPrecedes(m, k, ReconcileSlot);
  }

  lemma DockerBracket(m: Manifest)
    requires ManifestOk(m)
    ensures exists i :: Precedes(Plan(m), AggregateSlot(i), FaultSlot(DockerHostRestart))
    ensures (exists i :: Precedes(Plan(m), FaultSlot(DockerHostRestart), AggregateSlot(i)))
       <==> m.faults[DockerHostRestart] < m.durationSeconds - 60
  {
    var d, at := m.durationSeconds, m.faults[DockerHostRestart];
    var docker := FaultSlot(DockerHostRestart);
    AggregateBounds(d, at);
    var r := Sort3(AggregateSeconds(d, at));
    var x :| x in r && x <= at;
    var i :| 0 <= i < 3 && r[i] == x;
    EarlierPrecedes(m, AggregateSlot(i), docker);
    if at < d - 60 {
      var y :| y in r && y > at;
      var k :| 0 <= k < 3 && r[k] == y;
      EarlierPrecedes(m, docker, AggregateSlot(k));
    } else {
      forall k: nat
        ensures !Precedes(Plan(m), docker, AggregateSlot(k))
      {
        NoneAfter(m, k);
      }
    }
  }

  lemma NoneAfter(m: Manifest, k: nat)
    requires ManifestOk(m) && m.faults[DockerHostRestart] >= m.durationSeconds - 60
    ensures !Precedes(Plan(m), FaultSlot(DockerHostRestart), AggregateSlot(k))
  {
    PlanKeys(m);
    if k < 3 {
      var r := Sort3(AggregateSeconds(m.durationSeconds, m.faults[DockerHostRestart]));
      AggregateBounds(m.durationSeconds, m.faults[DockerHostRestart]);
      assert r[k] in r;
      EarlierPrecedes(m, AggregateSlot(k), FaultSlot(DockerHostRestart));
    } else {
      assert !HasKey(Plan(m), AggregateSlot(k));
    }
  }
}
