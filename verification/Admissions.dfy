/**
 Deposits and admissions of the soak workload (ensure_admission, ensure_deposit and next_l2_nonce of
 owner-soak-driver/zkdeal_owner_soak.py): what a worker that can be killed anywhere signs, records,
 broadcasts and posts.
 */
module Admissions {
  import opened Bytes

  // ---- the durable record of one admission ----

  /** A signed deposit; it has an inbox entry once its transaction is confirmed. */
  datatype Deposit = Deposit(raw: string, inbox: Option<string>)

  datatype Request = Request(raw: string, nonce: nat, inbox: string)

  datatype Record = Record(deposit: Option<Deposit>, request: Option<Request>, admission: Option<string>)

  const EMPTY := Record(None, None, None)

  type Saved = map<string, Record>

  function RecordOf(saved: Saved, key: string): Record
  {
    if key in saved then saved[key] else EMPTY
  }

  // ---- what has happened, over all generations ----

  datatype Note =
    | Boot
    | DepositSigned(key: string, raw: string)
    | DepositRecorded(key: string, raw: string)
    | DepositBroadcast(key: string, raw: string)
    | RequestRecorded(key: string, raw: string, nonce: nat)
    | RequestPosted(key: string, raw: string)
    | Dropped(key: string)
    | Admitted(key: string)

  type History = seq<Note>

  /** The deposit a record holds. */
  function Pending(h: History, key: string): Option<string>
  {
    if h == [] then None
    else
      match h[|h| - 1]
      case DepositRecorded(k, raw) => if k == key then Some(raw) else Pending(h[..|h| - 1], key)
      case Dropped(k) => if k == key then None else Pending(h[..|h| - 1], key)
      case _ => Pending(h[..|h| - 1], key)
  }

  function Requested(h: History, key: string): Option<string>
  {
    if h == [] then None
    else
      match h[|h| - 1]
      case RequestRecorded(k, raw, _) => if k == key then Some(raw) else Requested(h[..|h| - 1], key)
      case Dropped(k) => if k == key then None else Requested(h[..|h| - 1], key)
      case _ => Requested(h[..|h| - 1], key)
  }

  predicate IsAdmitted(h: History, key: string)
  {
    h != [] && (h[|h| - 1] == Admitted(key) || IsAdmitted(h[..|h| - 1], key))
  }

  /** Refused deposits dropped since the worker last booted. */
  function DropsThisBoot(h: History, key: string): nat
  {
    if h == [] || h[|h| - 1].Boot? then 0
    else DropsThisBoot(h[..|h| - 1], key) + (if h[|h| - 1] == Dropped(key) then 1 else 0)
  }

  /** Signed last, and not recorded yet. */
  predicate Signing(h: History)
  {
    h != [] && h[|h| - 1].DepositSigned?
  }

  ghost predicate NonceFresh(h: History, nonce: nat)
  {
    forall i :: 0 <= i < |h| && h[i].RequestRecorded? ==> h[i].nonce < nonce
  }

  /** What may happen next; after a signature only its record, or a new worker. */
  ghost predicate MayFollow(past: History, note: Note)
  {
    match note
    case Boot => true
    case DepositSigned(key, _) => !Signing(past) && Pending(past, key).None? && !IsAdmitted(past, key)
    case DepositRecorded(key, raw) =>
      Signing(past) && past[|past| - 1] == DepositSigned(key, raw) && Pending(past, key).None? && !IsAdmitted(past, key)
    case DepositBroadcast(key, raw) =>
      !Signing(past) && Pending(past, key) == Some(raw) && !IsAdmitted(past, key)
    case RequestRecorded(key, _, nonce) =>
      && !Signing(past) && Pending(past, key).Some? && Requested(past, key).None? && NonceFresh(past, nonce)
      && !IsAdmitted(past, key)
    case RequestPosted(key, raw) => !Signing(past) && Requested(past, key) == Some(raw) && !IsAdmitted(past, key)
    case Dropped(key) =>
      !Signing(past) && Pending(past, key).Some? && DropsThisBoot(past, key) == 0 && !IsAdmitted(past, key)
    case Admitted(key) => !Signing(past) && Requested(past, key).Some? && !IsAdmitted(past, key)
  }

  ghost predicate Lawful(h: History)
  {
    h == [] || (Lawful(h[..|h| - 1]) && MayFollow(h[..|h| - 1], h[|h| - 1]))
  }

  lemma Noted(h: History, note: Note)
    requires Lawful(h) && MayFollow(h, note)
    ensures Lawful(h + [note])
    ensures forall key :: (Pending(h + [note], key) ==
      if note.DepositRecorded? && note.key == key then Some(note.raw)
      else if note == Dropped(key) then None else Pending(h, key))
    ensures forall key :: (Requested(h + [note], key) ==
      if note.RequestRecorded? && note.key == key then Some(note.raw)
      else if note == Dropped(key) then None else Requested(h, key))
    ensures forall key :: IsAdmitted(h + [note], key) <==> note == Admitted(key) || IsAdmitted(h, key)
    ensures forall key :: (DropsThisBoot(h + [note], key) ==
      if note.Boot? then 0 else DropsThisBoot(h, key) + (if note == Dropped(key) then 1 else 0))
    ensures Boots(h + [note]) == Boots(h) + (if note.Boot? then 1 else 0)
  {
    assert (h + [note])[..|h + [note]| - 1] == h;
  }

  // ---- the laws of every history ----

  lemma {:induction false} LawfulAt(h: History, i: nat)
    requires Lawful(h) && i < |h|
    ensures Lawful(h[..i]) && MayFollow(h[..i], h[i])
    decreases |h|
  {
    if i < |h| - 1 {
      LawfulAt(h[..|h| - 1], i);
      assert h[..|h| - 1][..i] == h[..i];
    }
  }

  lemma {:induction false} PendingWasRecorded(h: History, key: string)
    requires Pending(h, key).Some?
    ensures exists j :: 0 <= j < |h| && h[j] == DepositRecorded(key, Pending(h, key).value)
                        && forall k :: j < k < |h| ==> h[k] != Dropped(key)
    decreases |h|
  {
    var front, last := h[..|h| - 1], h[|h| - 1];
    if last.DepositRecorded? && last.key == key {
      assert h[|h| - 1] == DepositRecorded(key, Pending(h, key).value);
    } else {
      PendingWasRecorded(front, key);
      var j :| 0 <= j < |front| && front[j] == DepositRecorded(key, Pending(front, key).value)
               && forall k :: j < k < |front| ==> front[k] != Dropped(key);
      assert h[j] == front[j] && forall k :: 0 <= k < |front| ==> h[k] == front[k];
    }
  }

  /** Every broadcast deposit was durably recorded first, and had not been dropped since. */
  lemma RecordedBeforeBroadcast(h: History, i: nat)
    requires Lawful(h) && i < |h| && h[i].DepositBroadcast?
    ensures exists j :: 0 <= j < i && h[j] == DepositRecorded(h[i].key, h[i].raw)
                        && forall k :: j < k < i ==> h[k] != Dropped(h[i].key)
  {
    LawfulAt(h, i);
    PendingWasRecorded(h[..i], h[i].key);
    var j :| 0 <= j < i && h[..i][j] == DepositRecorded(h[i].key, h[i].raw)
             && forall k :: j < k < |h[..i]| ==> h[..i][k] != Dropped(h[i].key);
    assert h[j] == h[..i][j] && forall k :: 0 <= k < i ==> h[k] == h[..i][k];
  }

  lemma {:induction false} PendingStays(h: History, i: nat, key: string)
    requires Lawful(h) && i <= |h| && Pending(h[..i], key).Some?
    requires forall k :: i <= k < |h| ==> h[k] != Dropped(key)
    ensures Pending(h, key) == Pending(h[..i], key)
    decreases |h|
  {
    if i < |h| {
      var front := h[..|h| - 1];
      assert front[..i] == h[..i];
      PendingStays(front, i, key);
    } else {
      assert h[..i] == h;
    }
  }

  /** A deposit is rebroadcast byte for byte, over any kills, until the coordinator refuses it. */
  lemma RebroadcastIdentical(h: History, i: nat, k: nat, key: string)
    requires Lawful(h) && i < k < |h|
    requires h[i].DepositBroadcast? && h[k].DepositBroadcast? && h[i].key == h[k].key == key
    requires forall n :: i < n < k ==> h[n] != Dropped(key)
    ensures h[i].raw == h[k].raw
  {
    LawfulAt(h, i);
    LawfulAt(h, k);
    assert h[..k][..i] == h[..i];
    assert forall n :: i <= n < k ==> h[..k][n] == h[n];
    PendingStays(h[..k], i, key);
  }

  function Deposits(h: History, key: string): nat
  {
    if h == [] then 0
    else Deposits(h[..|h| - 1], key) + (if h[|h| - 1].DepositRecorded? && h[|h| - 1].key == key then 1 else 0)
  }

  function Drops(h: History, key: string): nat
  {
    if h == [] then 0 else Drops(h[..|h| - 1], key) + (if h[|h| - 1] == Dropped(key) then 1 else 0)
  }

  function Boots(h: History): nat
  {
    if h == [] then 0 else Boots(h[..|h| - 1]) + (if h[|h| - 1].Boot? then 1 else 0)
  }

  /** Each recorded deposit after the first answers a refusal. */
  lemma {:induction false} DepositsAreDrops(h: History, key: string)
    requires Lawful(h)
    ensures Deposits(h, key) == Drops(h, key) + (if Pending(h, key).Some? then 1 else 0)
    decreases |h|
  {
    if h != [] { DepositsAreDrops(h[..|h| - 1], key); }
  }

  /** A generation drops at most one deposit of an admission. */
  lemma {:induction false} OneDropPerBoot(h: History, key: string)
    requires Lawful(h) && h != [] && h[0].Boot?
    ensures DropsThisBoot(h, key) <= 1 && Drops(h, key) <= Boots(h) - 1 + DropsThisBoot(h, key)
    decreases |h|
  {
    if |h| > 1 {
      var front := h[..|h| - 1];
      assert front[0] == h[0];
      OneDropPerBoot(front, key);
    } else {
      assert h[..0] == [];
    }
  }

  /** At most one deposit more than refusals, so at most one more than worker boots. */
  lemma DepositsBounded(h: History, key: string)
    requires Lawful(h) && h != [] && h[0].Boot?
    ensures Deposits(h, key) <= 1 + Drops(h, key) && Drops(h, key) <= Boots(h)
  {
    DepositsAreDrops(h, key);
    OneDropPerBoot(h, key);
  }

  // ---- signed deposits ----

  predicate Signs(note: Note, key: string)
  {
    note.DepositSigned? && note.key == key
  }

  function Signed(h: History, key: string): nat
  {
    if h == [] then 0 else Signed(h[..|h| - 1], key) + (if Signs(h[|h| - 1], key) then 1 else 0)
  }

  function SignedThisBoot(h: History, key: string): nat
  {
    if h == [] || h[|h| - 1].Boot? then 0
    else SignedThisBoot(h[..|h| - 1], key) + (if Signs(h[|h| - 1], key) then 1 else 0)
  }

  /** A worker was killed when it had signed this deposit and not yet recorded it. */
  ghost predicate CutAt(h: History, key: string, i: int)
  {
    0 <= i < |h| && Signs(h[i], key) && (i + 1 == |h| || h[i + 1].Boot?)
  }

  /** How often that happened: workers booted after it, and the one at the end. */
  function Cuts(h: History, key: string): nat
  {
    CutsBefore(h, key) + (if h != [] && Signs(h[|h| - 1], key) then 1 else 0)
  }

  function CutsBefore(h: History, key: string): nat
  {
    if |h| < 2 then 0
    else CutsBefore(h[..|h| - 1], key) + (if h[|h| - 1].Boot? && Signs(h[|h| - 2], key) then 1 else 0)
  }

  /** What was signed was recorded, unless the worker was killed in between. */
  lemma {:induction false} SignedOrCut(h: History, key: string)
    requires Lawful(h)
    ensures Signed(h, key) == Deposits(h, key) + Cuts(h, key)
    decreases |h|
  {
    if h != [] { SignedOrCut(h[..|h| - 1], key); }
  }

  lemma {:induction false} CutsAreKills(h: History, key: string)
    requires h != [] && h[0].Boot?
    ensures CutsBefore(h, key) < Boots(h)
    decreases |h|
  {
    if |h| > 1 {
      assert h[..|h| - 1][0] == h[0];
      CutsAreKills(h[..|h| - 1], key);
    } else {
      assert h[..0] == [];
    }
  }

  lemma {:induction false} CutsExist(h: History, key: string)
    ensures CutsBefore(h, key) > 0 <==> exists i :: i + 1 < |h| && CutAt(h, key, i)
    decreases |h|
  {
    if |h| >= 2 {
      var front := h[..|h| - 1];
      CutsExist(front, key);
      if i :| i + 1 < |front| && CutAt(front, key, i) {
        assert CutAt(h, key, i);
      }
      if i :| i + 1 < |h| && CutAt(h, key, i) && i + 2 < |h| {
        assert CutAt(front, key, i);
      }
      if h[|h| - 1].Boot? && Signs(h[|h| - 2], key) {
        assert CutAt(h, key, |h| - 2);
      }
    }
  }

  /** A generation signs at most once more than it drops. */
  lemma {:induction false} SignsPerBoot(h: History, key: string)
    requires Lawful(h)
    ensures SignedThisBoot(h, key) <= DropsThisBoot(h, key)
                                      + (if Pending(h, key).Some? || (Signing(h) && h[|h| - 1].key == key) then 1
                                          else 0)
    decreases |h|
  {
    if h != [] { SignsPerBoot(h[..|h| - 1], key); }
  }

  lemma {:induction false} SignedPerBoot(h: History, key: string)
    requires Lawful(h) && h != [] && h[0].Boot?
    ensures Signed(h, key) <= 2 * (Boots(h) - 1) + SignedThisBoot(h, key) && SignedThisBoot(h, key) <= 2
    decreases |h|
  {
    SignsPerBoot(h, key);
    OneDropPerBoot(h, key);
    if |h| > 1 {
      assert h[..|h| - 1][0] == h[0];
      SignedPerBoot(h[..|h| - 1], key);
    } else {
      assert h[..0] == [];
    }
  }

  /**
   A worker signs at most two deposits of an admission; over all of them as many as were recorded, and one
   more for each worker killed between the signature and its record. They are as many as the recorded
   ones exactly when no worker was.
   */
  lemma SignedBounded(h: History, key: string)
    requires Lawful(h) && h != [] && h[0].Boot?
    ensures Signed(h, key) <= 2 * Boots(h)
    ensures Deposits(h, key) <= Signed(h, key) <= Deposits(h, key) + Boots(h)
    ensures Signed(h, key) == Deposits(h, key) <==> forall i :: !CutAt(h, key, i)
  {
    SignedPerBoot(h, key);
    SignedOrCut(h, key);
    CutsAreKills(h, key);
    CutsExist(h, key);
    if Signs(h[|h| - 1], key) { assert CutAt(h, key, |h| - 1); }
  }

  /** No L2 nonce is attached to two recorded requests. */
  lemma NoncesDistinct(h: History, i: nat, k: nat)
    requires Lawful(h) && i < k < |h| && h[i].RequestRecorded? && h[k].RequestRecorded?
    ensures h[i].nonce < h[k].nonce
  {
    LawfulAt(h, k);
    assert h[..k][i] == h[i];
  }

  lemma {:induction false} AdmittedStays(h: History, i: nat, key: string)
    requires i <= |h| && IsAdmitted(h[..i], key)
    ensures IsAdmitted(h, key)
    decreases |h|
  {
    if i < |h| {
      assert h[..|h| - 1][..i] == h[..i];
      AdmittedStays(h[..|h| - 1], i, key);
    } else {
      assert h[..i] == h;
    }
  }

  /** An issued admission is final: nothing of it is signed, broadcast, posted or dropped again. */
  lemma AdmittedOnce(h: History, i: nat, k: nat, key: string)
    requires Lawful(h) && i < k < |h| && h[i] == Admitted(key)
    ensures h[k] == Boot || h[k].key != key
  {
    LawfulAt(h, k);
    var past := h[..k];
    assert past[..i + 1][|past[..i + 1]| - 1] == Admitted(key);
    AdmittedStays(past, i + 1, key);
  }

  // ---- the worker ----

  datatype Post = Receipt(admission: string) | Refusal | Failure

  /** What the chain and the coordinator answer in one attempt. */
  datatype Attempt = Attempt(
    raw: string, accepted: bool, inbox: string, requestRaw: string, windowFits: bool, post: Post)

  /** A record and the history agree. */
  ghost predicate Agrees(r: Record, h: History, key: string)
  {
    && (match r.deposit case None => Pending(h, key).None? case Some(d) => Pending(h, key) == Some(d.raw))
    && (match r.request case None => Requested(h, key).None? case Some(q) => Requested(h, key) == Some(q.raw))
    && (r.request.Some? ==> r.deposit.Some? && r.deposit.value.inbox == Some(r.request.value.inbox))
    && (r.admission.Some? <==> IsAdmitted(h, key))
  }

  /** An attempt that gets as far as the coordinator ... */
  predicate Arrives(a: Attempt)
  {
    a.accepted && a.windowFits
  }

  /** ... and is refused there ... */
  predicate Refused(a: Attempt)
  {
    Arrives(a) && a.post.Refusal?
  }

  /** ... or gets its receipt. */
  predicate Received(a: Attempt)
  {
    Arrives(a) && a.post.Receipt?
  }

  /** What such an attempt notes, from an empty record on, up to the refusal. */
  function Round(key: string, a: Attempt, nonce: nat): History
  {
    [DepositSigned(key, a.raw), DepositRecorded(key, a.raw), DepositBroadcast(key, a.raw),
     RequestRecorded(key, a.requestRaw, nonce), RequestPosted(key, a.requestRaw)]
  }

  /** ... and what follows when the worker is killed on the second attempt as soon as it has signed. */
  function TwoSigned(key: string, first: Attempt, second: Attempt, nonce: nat): History
  {
    Round(key, first, nonce) + [Dropped(key), DepositSigned(key, second.raw)]
  }

  /** The same generation goes on; its refusals are as they were. */
  ghost predicate Continues(h: History, h': History)
  {
    h <= h' && Boots(h') == Boots(h) && forall key :: DropsThisBoot(h', key) == DropsThisBoot(h, key)
  }

  /** ... except for those of one admission. */
  ghost predicate ContinuesBut(h: History, h': History, key: string)
  {
    h <= h' && Boots(h') == Boots(h) && forall k :: k != key ==> DropsThisBoot(h', k) == DropsThisBoot(h, k)
  }

  lemma ContinuesThen(a: History, b: History, c: History)
    requires Continues(a, b) && Continues(b, c)
    ensures Continues(a, c)
  {
  }

  lemma ContinuesButThen(a: History, b: History, c: History, key: string)
    requires ContinuesBut(a, b, key) && ContinuesBut(b, c, key)
    ensures ContinuesBut(a, c, key)
  {
  }

  class Worker {
    // durable: the driver state's data
    var saved: Saved
    var nextNonce: nat

    // how many more actions this worker lives for
    var left: nat

    ghost var history: History

    ghost predicate Valid()
      reads this
    {
      && Lawful(history) && NonceFresh(history, nextNonce)
      && forall key :: Agrees(RecordOf(saved, key), history, key)
    }

    constructor ()
      ensures Valid() && history == [] && saved == map[] && nextNonce == 0
    {
      saved, nextNonce, left, history := map[], 0, 0, [];
    }

    /** One action, unless the worker is killed first. */
    method Alive() returns (alive: bool)
      modifies this`left
      ensures alive <==> old(left) > 0
      ensures left == if alive then old(left) - 1 else 0
    {
      alive := left > 0;
      if alive { left := left - 1; }
    }

    /** The state file and what happened, in one step. */
    method Put(key: string, record: Record, ghost note: Note)
      requires Valid() && MayFollow(history, note) && note != Boot && note.key == key
      requires note.RequestRecorded? ==> note.nonce < nextNonce
      requires Agrees(record, history + [note], key)
      modifies this`saved, this`history
      ensures Valid() && history == old(history) + [note] && saved == old(saved)[key := record]
    {
      Noted(history, note);
      history := history + [note];
      saved := saved[key := record];
      forall k
        ensures Agrees(RecordOf(saved, k), history, k)
      {
        if k != key { assert Agrees(old(RecordOf(saved, k)), old(history), k); }
      }
    }

    /** Nothing durable changes: a signature, a broadcast or a post. */
    ghost method Note(note: Note)
      requires Valid() && MayFollow(history, note)
      requires note.DepositSigned? || note.DepositBroadcast? || note.RequestPosted?
      modifies this`history
      ensures Valid() && history == old(history) + [note]
    {
      Noted(history, note);
      history := history + [note];
    }

    /** A new generation over the same state file. */
    method Reboot(lifetime: nat)
      requires Valid()
      modifies this
      ensures Valid() && history == old(history) + [Boot] && saved == old(saved) && nextNonce == old(nextNonce)
      ensures left == lifetime
    {
      Noted(history, Boot);
      history := history + [Boot];
      left := lifetime;
    }

    /** next_l2_nonce: the counter is saved before the nonce is used. */
    method NextNonce() returns (nonce: nat)
      requires Valid()
      modifies this`nextNonce
      ensures Valid() && NonceFresh(history, nonce) && nextNonce == nonce + 1 && nonce == old(nextNonce)
    {
      nonce := nextNonce;
      nextNonce := nextNonce + 1;
    }

    /** ensure_deposit and fund_and_deposit: record, broadcast, and keep the confirmed inbox entry. */
    method EnsureDeposit(key: string, a: Attempt) returns (ok: bool)
      requires Valid() && !Signing(history) && !IsAdmitted(history, key)
      modifies this
      ensures Valid() && !IsAdmitted(history, key) && (ok ==> !Signing(history))
      ensures ok ==> RecordOf(saved, key).deposit.Some? && RecordOf(saved, key).deposit.value.inbox.Some?
      ensures Continues(old(history), history)
      ensures nextNonce == old(nextNonce)
      ensures old(RecordOf(saved, key)) == EMPTY && a.accepted && old(left) >= 4 ==>
        && ok && left == old(left) - 4 && RecordOf(saved, key).request.None?
        && history == old(history)
                      + [DepositSigned(key, a.raw), DepositRecorded(key, a.raw), DepositBroadcast(key, a.raw)]
      ensures old(RecordOf(saved, key)) == EMPTY && old(left) == 1 ==>
        !ok && history == old(history) + [DepositSigned(key, a.raw)] && saved == old(saved)
    {
      if RecordOf(saved, key).deposit.Some? && RecordOf(saved, key).deposit.value.inbox.Some? { return true; }
      if RecordOf(saved, key).deposit.None? {
        ok := SignAndRemember(key, a.raw);
        if !ok { return; }
      }
      ghost var signed := history;
      ok := Alive();
      if !ok { return; }
      Broadcast(key);
      ContinuesThen(old(history), signed, history);
      if !a.accepted { return false; }
      ok := Alive();
      if !ok { return; }
      Confirm(key, a.inbox);
    }

    /** A new deposit: signed, and then recorded unless the worker is killed in between. */
    method SignAndRemember(key: string, raw: string) returns (ok: bool)
      requires Valid() && !Signing(history) && !IsAdmitted(history, key) && RecordOf(saved, key).deposit.None?
      modifies this
      ensures Valid() && !IsAdmitted(history, key) && (ok ==> !Signing(history))
      ensures ok ==> RecordOf(saved, key).deposit.Some? && RecordOf(saved, key).deposit.value.inbox.None?
      ensures Continues(old(history), history)
      ensures nextNonce == old(nextNonce)
      ensures old(left) >= 2 ==>
        && ok && left == old(left) - 2
        && history == old(history) + [DepositSigned(key, raw), DepositRecorded(key, raw)]
        && RecordOf(saved, key) == old(RecordOf(saved, key)).(deposit := Some(Deposit(raw, None)))
      ensures old(left) == 1 ==> !ok && history == old(history) + [DepositSigned(key, raw)] && saved == old(saved)
    {
      ok := Alive();
      if !ok { return; }
      Sign(key, raw);
      ghost var signed := history;
      ok := Alive();
      if !ok { return; }
      Remember(key, raw);
      ContinuesThen(old(history), signed, history);
    }

    /** sign_legacy_transaction: nothing durable knows of it yet. */
    method Sign(key: string, raw: string)
      requires Valid() && !Signing(history) && !IsAdmitted(history, key) && RecordOf(saved, key).deposit.None?
      modifies this`history
      ensures Valid() && history == old(history) + [DepositSigned(key, raw)] && !IsAdmitted(history, key)
      ensures Continues(old(history), history)
    {
      assert Agrees(RecordOf(saved, key), history, key);
      Noted(history, DepositSigned(key, raw));
      Note(DepositSigned(key, raw));
    }

    /** on_prepared: the signed bytes go on record before they are broadcast. */
    method Remember(key: string, raw: string)
      requires Valid() && !IsAdmitted(history, key) && RecordOf(saved, key).deposit.None?
      requires Signing(history) && history[|history| - 1] == DepositSigned(key, raw)
      modifies this`saved, this`history
      ensures Valid() && history == old(history) + [DepositRecorded(key, raw)] && !IsAdmitted(history, key)
      ensures RecordOf(saved, key) == old(RecordOf(saved, key)).(deposit := Some(Deposit(raw, None)))
      ensures Continues(old(history), history)
    {
      var record := RecordOf(saved, key);
      assert Agrees(record, history, key);
      Noted(history, DepositRecorded(key, raw));
      Put(key, record.(deposit := Some(Deposit(raw, None))), DepositRecorded(key, raw));
    }

    method Broadcast(key: string)
      requires Valid() && !Signing(history) && !IsAdmitted(history, key) && RecordOf(saved, key).deposit.Some?
      modifies this`history
      ensures Valid() && !IsAdmitted(history, key)
      ensures history == old(history) + [DepositBroadcast(key, RecordOf(saved, key).deposit.value.raw)]
      ensures Continues(old(history), history)
    {
      ghost var note := DepositBroadcast(key, RecordOf(saved, key).deposit.value.raw);
      assert Agrees(RecordOf(saved, key), history, key);
      Noted(history, note);
      Note(note);
    }

    /** The receipt of the deposit is final; its inbox entry is saved with it. */
    method Confirm(key: string, inbox: string)
      requires Valid() && RecordOf(saved, key).deposit.Some? && RecordOf(saved, key).deposit.value.inbox.None?
      modifies this`saved
      ensures Valid() && RecordOf(saved, key).deposit.Some? && RecordOf(saved, key).deposit.value.inbox.Some?
      ensures RecordOf(saved, key).request == old(RecordOf(saved, key).request)
    {
      var record := RecordOf(saved, key);
      assert Agrees(record, history, key);
      record := record.(deposit := Some(record.deposit.value.(inbox := Some(inbox))));
      saved := saved[key := record];
      forall k
        ensures Agrees(RecordOf(saved, k), history, k)
      {
        if k != key { assert Agrees(old(RecordOf(saved, k)), history, k); }
      }
    }

    /** The recorded request, or a new one under the next nonce. */
    method EnsureRequest(key: string, a: Attempt) returns (ok: bool)
      requires Valid() && !Signing(history) && !IsAdmitted(history, key)
      requires RecordOf(saved, key).deposit.Some? && RecordOf(saved, key).deposit.value.inbox.Some?
      modifies this
      ensures Valid() && !Signing(history) && !IsAdmitted(history, key)
      ensures ok ==> RecordOf(saved, key).request.Some?
      ensures Continues(old(history), history)
      ensures old(RecordOf(saved, key)).request.None? && a.windowFits && old(left) >= 2 ==>
        && ok && left == old(left) - 2 && RecordOf(saved, key).request.value.raw == a.requestRaw
        && history == old(history) + [RequestRecorded(key, a.requestRaw, old(nextNonce))]
    {
      var record := RecordOf(saved, key);
      assert Agrees(record, history, key);
      if record.request.Some? { return true; }
      ok := Alive();
      if !ok { return; }
      var nonce := NextNonce();
      if !a.windowFits { return false; }
      ok := Alive();
      if !ok { return; }
      RememberRequest(key, a.requestRaw, nonce);
    }

    method RememberRequest(key: string, raw: string, nonce: nat)
      requires Valid() && !Signing(history) && !IsAdmitted(history, key) && NonceFresh(history, nonce)
        && nonce < nextNonce
      requires RecordOf(saved, key).deposit.Some? && RecordOf(saved, key).deposit.value.inbox.Some?
      requires RecordOf(saved, key).request.None?
      modifies this`saved, this`history
      ensures Valid() && history == old(history) + [RequestRecorded(key, raw, nonce)] && !IsAdmitted(history, key)
      ensures RecordOf(saved, key).request.Some? && RecordOf(saved, key).request.value.raw == raw
      ensures Continues(old(history), history)
    {
      var record := RecordOf(saved, key);
      assert Agrees(record, history, key);
      ghost var note := RequestRecorded(key, raw, nonce);
      record := record.(request := Some(Request(raw, nonce, record.deposit.value.inbox.value)));
      Noted(history, note);
      Put(key, record, note);
    }

    /** One attempt up to the coordinator's answer. */
    method TryOnce(key: string, a: Attempt) returns (ok: bool)
      requires Valid() && !Signing(history) && !IsAdmitted(history, key)
      modifies this
      ensures Valid() && !IsAdmitted(history, key)
      ensures ok ==> !Signing(history) && RecordOf(saved, key).request.Some?
      ensures Continues(old(history), history)
      ensures old(RecordOf(saved, key)) == EMPTY && a.accepted && a.windowFits && old(left) >= 8 ==>
        ok && left == old(left) - 8 && history == old(history) + Round(key, a, old(nextNonce))
      ensures old(RecordOf(saved, key)) == EMPTY && old(left) == 1 ==>
        !ok && history == old(history) + [DepositSigned(key, a.raw)] && saved == old(saved)
    {
      ok := EnsureDeposit(key, a);
      if !ok { return; }
      ghost var deposited := history;
      ok := EnsureRequest(key, a);
      ContinuesThen(old(history), deposited, history);
      if !ok { return; }
      ghost var requested := history;
      ok := Alive();
      if !ok { return; }
      Submit(key);
      ContinuesThen(old(history), requested, history);
      ok := Alive();
    }

    /** The coordinator's answer: a receipt is kept, and only the refusal of the first attempt earns another. */
    method Answered(key: string, post: Post, last: bool) returns (ok: bool, again: bool)
      requires Valid() && !Signing(history) && !IsAdmitted(history, key) && RecordOf(saved, key).request.Some?
      requires !last ==> DropsThisBoot(history, key) == 0
      modifies this`saved, this`history
      ensures Valid() && !Signing(history) && ContinuesBut(old(history), history, key)
      ensures ok <==> IsAdmitted(history, key)
      ensures again <==> post.Refusal? && !last
      ensures again ==> !ok && RecordOf(saved, key) == EMPTY && history == old(history) + [Dropped(key)]
      ensures post.Receipt? ==>
        && ok && history == old(history) + [Admitted(key)]
        && saved == old(saved)[key := old(RecordOf(saved, key)).(admission := Some(post.admission))]
      ensures post.Failure? || (post.Refusal? && last) ==> !ok && saved == old(saved) && history == old(history)
    {
      ok, again := false, false;
      match post {
        case Receipt(admission) =>
          Admit(key, admission);
          ok := true;
        case Failure =>
        case Refusal =>
          if !last {
            Drop(key);
            assert Agrees(RecordOf(saved, key), history, key);
            again := true;
          }
      }
    }

    /** ensure_admission: two attempts, the second only after an outright refusal of the first. */
    method EnsureAdmission(key: string, first: Attempt, second: Attempt) returns (ok: bool)
      requires Valid() && !Signing(history) && DropsThisBoot(history, key) == 0
      modifies this
      ensures Valid() && (ok ==> IsAdmitted(history, key) && !Signing(history))
      ensures ContinuesBut(old(history), history, key)
      ensures old(RecordOf(saved, key)) == EMPTY && Refused(first) && old(left) == 9 ==>
        && !ok && RecordOf(saved, key) == EMPTY
        && history == old(history) + TwoSigned(key, first, second, old(nextNonce))
      // what is on record is answered from the record
      ensures old(RecordOf(saved, key)).admission.Some? ==> ok && history == old(history) && saved == old(saved)
      // a receipt of either attempt is kept, and a worker that lives long enough to get one returns
      ensures old(RecordOf(saved, key)) == EMPTY && Received(first) && old(left) >= 8 ==>
        && ok && RecordOf(saved, key).admission == Some(first.post.admission)
        && history == old(history) + Round(key, first, old(nextNonce)) + [Admitted(key)]
      ensures old(RecordOf(saved, key)) == EMPTY && Refused(first) && Received(second) && old(left) >= 16 ==>
        ok && RecordOf(saved, key).admission == Some(second.post.admission)
    {
      assert Agrees(RecordOf(saved, key), history, key);
      if RecordOf(saved, key).admission.Some? { return true; }
      var attempt := 0;
      while attempt < 2
        invariant 0 <= attempt < 2 && Valid() && !Signing(history) && !IsAdmitted(history, key)
        invariant attempt == 0 ==> DropsThisBoot(history, key) == 0
        invariant ContinuesBut(old(history), history, key)
        invariant attempt == 0 ==>
          history == old(history) && saved == old(saved) && left == old(left) && nextNonce == old(nextNonce)
        invariant attempt == 1 && old(RecordOf(saved, key)) == EMPTY && old(left) >= 8 && Arrives(first) ==>
          && left == old(left) - 8 && RecordOf(saved, key) == EMPTY && Refused(first)
          && history == old(history) + (Round(key, first, old(nextNonce)) + [Dropped(key)])
        decreases 2 - attempt
      {
        ghost var before := history;
        var again;
        ok, again := Turn(key, if attempt == 0 then first else second, attempt == 1);
        ContinuesButThen(old(history), before, history, key);
        if !again { return; }
        attempt := attempt + 1;
      }
      ok := false;
    }

    /** One attempt and its answer. */
    method Turn(key: string, a: Attempt, last: bool) returns (ok: bool, again: bool)
      requires Valid() && !Signing(history) && !IsAdmitted(history, key)
      requires !last ==> DropsThisBoot(history, key) == 0
      modifies this
      ensures Valid() && (ok ==> IsAdmitted(history, key) && !Signing(history))
      ensures ContinuesBut(old(history), history, key)
      ensures again ==>
        && !last && a.post.Refusal? && !ok && !Signing(history) && !IsAdmitted(history, key)
        && RecordOf(saved, key) == EMPTY
      ensures old(RecordOf(saved, key)) == EMPTY && Arrives(a) && old(left) >= 8 ==>
        && left == old(left) - 8
        && (a.post.Receipt? ==>
              && ok && RecordOf(saved, key).admission == Some(a.post.admission)
              && history == old(history) + Round(key, a, old(nextNonce)) + [Admitted(key)])
        && (a.post.Refusal? && !last ==>
              again && history == old(history) + (Round(key, a, old(nextNonce)) + [Dropped(key)]))
      ensures old(RecordOf(saved, key)) == EMPTY && old(left) == 1 ==>
        !ok && !again && history == old(history) + [DepositSigned(key, a.raw)] && saved == old(saved)
    {
      again := false;
      ok := TryOnce(key, a);
      if ok {
        ghost var posted := history;
        ok, again := Answered(key, a.post, last);
        ContinuesButThen(old(history), posted, history, key);
      }
    }

    /** The recorded request is posted as it was recorded; it names the deposit it was built for. */
    method Submit(key: string)
      requires Valid() && !Signing(history) && !IsAdmitted(history, key) && RecordOf(saved, key).request.Some?
      modifies this`history
      ensures Valid() && !IsAdmitted(history, key) && |history| > 0
      ensures history == old(history) + [RequestPosted(key, RecordOf(saved, key).request.value.raw)]
      ensures Continues(old(history), history)
    {
      ghost var record := RecordOf(saved, key);
      assert Agrees(record, history, key);
      ghost var note := RequestPosted(key, record.request.value.raw);
      Noted(history, note);
      Note(note);
    }

    /** The receipt is saved with the record. */
    method Admit(key: string, admission: string)
      requires Valid() && !Signing(history) && !IsAdmitted(history, key) && RecordOf(saved, key).request.Some?
      modifies this`saved, this`history
      ensures Valid() && IsAdmitted(history, key) && history == old(history) + [Admitted(key)]
      ensures saved == old(saved)[key := old(RecordOf(saved, key)).(admission := Some(admission))]
      ensures Continues(old(history), history)
    {
      var record := RecordOf(saved, key);
      assert Agrees(record, history, key);
      ghost var note := Admitted(key);
      Noted(history, note);
      Put(key, record.(admission := Some(admission)), note);
    }

    /** A refused deposit and its request are forgotten. */
    method Drop(key: string)
      requires Valid() && !Signing(history) && !IsAdmitted(history, key) && DropsThisBoot(history, key) == 0
      requires RecordOf(saved, key).request.Some?
      modifies this`saved, this`history
      ensures Valid() && !IsAdmitted(history, key) && history == old(history) + [Dropped(key)]
      ensures RecordOf(saved, key).deposit.None? && RecordOf(saved, key).request.None?
      ensures ContinuesBut(old(history), history, key)
    {
      var record := RecordOf(saved, key);
      assert Agrees(record, history, key);
      ghost var note := Dropped(key);
      Noted(history, note);
      Put(key, record.(deposit := None, request := None), note);
    }
  }

  /** One admission of a generation's work. */
  datatype Call = Call(key: string, first: Attempt, second: Attempt)

  ghost predicate DistinctKeys(calls: seq<Call>)
  {
    forall i, k :: 0 <= i < k < |calls| ==> calls[i].key != calls[k].key
  }

  /** A generation with one admission to ask for, which is refused, and whose life ends with the second signature. */
  ghost predicate DiesSigning(saved: Saved, calls: seq<Call>, lifetime: nat)
  {
    |calls| == 1 && lifetime == 9 && RecordOf(saved, calls[0].key) == EMPTY && Refused(calls[0].first)
  }

  /** A generation asks for each admission once and ends with the first that fails. */
  method RunGeneration(worker: Worker, calls: seq<Call>, lifetime: nat)
    requires worker.Valid() && DistinctKeys(calls)
    modifies worker
    ensures worker.Valid() && old(worker.history) + [Boot] <= worker.history
    ensures Boots(worker.history) == old(Boots(worker.history)) + 1
    ensures DiesSigning(old(worker.saved), calls, lifetime) ==>
      && RecordOf(worker.saved, calls[0].key) == EMPTY
      && worker.history == old(worker.history) + [Boot]
                           + TwoSigned(calls[0].key, calls[0].first, calls[0].second, old(worker.nextNonce))
  {
    worker.Reboot(lifetime);
    Noted(old(worker.history), Boot);
    ghost var booted := worker.history;
    var i := 0;
    while i < |calls|
      invariant 0 <= i <= |calls| && worker.Valid() && !Signing(worker.history) && booted <= worker.history
      invariant Boots(worker.history) == Boots(booted)
      invariant forall k :: i <= k < |calls| ==> DropsThisBoot(worker.history, calls[k].key) == 0
      invariant i == 0 ==> worker.history == booted && worker.saved == old(worker.saved)
      invariant i == 0 ==> worker.nextNonce == old(worker.nextNonce) && worker.left == lifetime
      invariant DiesSigning(old(worker.saved), calls, lifetime) ==> i == 0
    {
      var ok := worker.EnsureAdmission(calls[i].key, calls[i].first, calls[i].second);
      if !ok { return; }
      i := i + 1;
    }
  }

  datatype Generation = Generation(calls: seq<Call>, lifetime: nat)

  /**
   Any number of generations, killed anywhere: the history obeys the laws above, so deposits are
   recorded before they are broadcast, rebroadcast unchanged, bounded by the boots, and no nonce repeats.
   Signed deposits are bounded by twice the boots only.
   */
  method RunGenerations(generations: seq<Generation>) returns (worker: Worker, ghost history: History)
    requires forall i :: 0 <= i < |generations| ==> DistinctKeys(generations[i].calls)
    ensures fresh(worker) && worker.Valid() && history == worker.history && Lawful(history)
    ensures forall key :: Deposits(history, key) <= 1 + |generations| && Signed(history, key) <= 2 * |generations|
    ensures forall i, k :: 0 <= i < k < |history| && history[i].RequestRecorded? && history[k].RequestRecorded? ==>
      history[i].nonce < history[k].nonce
  {
    worker := new Worker();
    var i := 0;
    while i < |generations|
      invariant 0 <= i <= |generations| && fresh(worker) && worker.Valid()
      invariant worker.history == [] || worker.history[0].Boot?
      invariant Boots(worker.history) == i
    {
      RunGeneration(worker, generations[i].calls, generations[i].lifetime);
      i := i + 1;
    }
    history := worker.history;
    forall key
      ensures Deposits(history, key) <= 1 + |generations| && Signed(history, key) <= 2 * |generations|
    {
      if history != [] {
        DepositsBounded(history, key);
        SignedBounded(history, key);
      }
    }
    forall i, k | 0 <= i < k < |history| && history[i].RequestRecorded? && history[k].RequestRecorded?
      ensures history[i].nonce < history[k].nonce
    {
      NoncesDistinct(history, i, k);
    }
  }

  // ---- two signed deposits a generation ----

  /** The n-th of distinct signed deposits. */
  function Raw(n: nat): (raw: string)
    ensures |raw| == n
  {
    if n == 0 then "" else Raw(n - 1) + "d"
  }

  /** All signed deposits of a history are different ones, and shorter than n. */
  ghost predicate SignedApart(h: History, n: nat)
  {
    && (forall i :: 0 <= i < |h| && h[i].DepositSigned? ==> |h[i].raw| < n)
    && (forall i, k :: 0 <= i < k < |h| && h[i].DepositSigned? && h[k].DepositSigned? ==> h[i].raw != h[k].raw)
  }

  lemma SignedApartOne(h: History, n: nat, key: string)
    requires SignedApart(h, n)
    ensures SignedApart(h + [DepositSigned(key, Raw(n))], n + 1)
    ensures Signed(h + [DepositSigned(key, Raw(n))], key) == Signed(h, key) + 1
  {
    var h' := h + [DepositSigned(key, Raw(n))];
    assert h'[..|h'| - 1] == h;
  }

  lemma SignedSame(h: History, n: nat, key: string, note: Note)
    requires SignedApart(h, n) && !note.DepositSigned?
    ensures SignedApart(h + [note], n) && Signed(h + [note], key) == Signed(h, key)
  {
    var h' := h + [note];
    assert h'[..|h'| - 1] == h;
  }

  /** Notes that are not signatures change nothing of that. */
  lemma {:induction false} SignedQuiet(h: History, n: nat, key: string, notes: History)
    requires SignedApart(h, n) && forall i :: 0 <= i < |notes| ==> !notes[i].DepositSigned?
    ensures SignedApart(h + notes, n) && Signed(h + notes, key) == Signed(h, key)
    decreases |notes|
  {
    if notes == [] {
      assert h + notes == h;
    } else {
      var front := notes[..|notes| - 1];
      SignedQuiet(h, n, key, front);
      SignedSame(h + front, n, key, notes[|notes| - 1]);
      assert h + notes == h + front + [notes[|notes| - 1]];
    }
  }

  /** Two signatures with other notes in between. */
  lemma SignedTwice(h: History, n: nat, key: string, quiet: History)
    requires SignedApart(h, n) && forall i :: 0 <= i < |quiet| ==> !quiet[i].DepositSigned?
    ensures var h' := h + [DepositSigned(key, Raw(n))] + quiet + [DepositSigned(key, Raw(n + 1))];
      SignedApart(h', n + 2) && Signed(h', key) == Signed(h, key) + 2
  {
    SignedApartOne(h, n, key);
    SignedQuiet(h + [DepositSigned(key, Raw(n))], n + 1, key, quiet);
    SignedApartOne(h + [DepositSigned(key, Raw(n))] + quiet, n + 1, key);
  }

  lemma TwoSignedParts(h: History, key: string, first: Attempt, second: Attempt, nonce: nat) returns (quiet: History)
    ensures forall i :: 0 <= i < |quiet| ==> !quiet[i].DepositSigned?
    ensures h + TwoSigned(key, first, second, nonce)
         == h + [DepositSigned(key, first.raw)] + quiet + [DepositSigned(key, second.raw)]
  {
    quiet := [DepositRecorded(key, first.raw), DepositBroadcast(key, first.raw),
              RequestRecorded(key, first.requestRaw, nonce), RequestPosted(key, first.requestRaw), Dropped(key)];
    assert TwoSigned(key, first, second, nonce)
        == [DepositSigned(key, first.raw)] + quiet + [DepositSigned(key, second.raw)];
  }

  /** One such generation signs two deposits more. */
  lemma TwoMore(h: History, n: nat, key: string, first: Attempt, second: Attempt, nonce: nat)
    requires SignedApart(h, n) && first.raw == Raw(n) && second.raw == Raw(n + 1)
    ensures SignedApart(h + TwoSigned(key, first, second, nonce), n + 2)
    ensures Signed(h + TwoSigned(key, first, second, nonce), key) == Signed(h, key) + 2
  {
    var quiet := TwoSignedParts(h, key, first, second, nonce);
    SignedTwice(h, n, key, quiet);
  }

  /**
   Every generation signs, records, broadcasts and posts a deposit, sees it refused, signs another and is
   killed: each of n generations has signed two different deposits, which is the most they can.
   */
  method TwoEachBoot(key: string, n: nat) returns (worker: Worker)
    ensures fresh(worker) && worker.Valid() && Boots(worker.history) == n && Signed(worker.history, key) == 2 * n
    ensures SignedApart(worker.history, 2 * n)
  {
    worker := new Worker();
    for i := 0 to n
      invariant fresh(worker) && worker.Valid() && Boots(worker.history) == i
      invariant RecordOf(worker.saved, key) == EMPTY
      invariant SignedApart(worker.history, 2 * i) && Signed(worker.history, key) == 2 * i
    {
      var first := Attempt(Raw(2 * i), true, "inbox", "request", true, Refusal);
      var second := Attempt(Raw(2 * i + 1), true, "inbox", "request", true, Refusal);
      ghost var h, nonce := worker.history, worker.nextNonce;
      RunGeneration(worker, [Call(key, first, second)], 9);
      SignedSame(h, 2 * i, key, Boot);
      TwoMore(h + [Boot], 2 * i, key, first, second, nonce);
    }
  }
}
