/**
 The write-once intent and closure journals of fault-control/fault_control.py and
 backup-restore-control/backup_restore_control.py. Both guard an external effect; the second also
 makes an exclusive directory per operation, and that changes what it guarantees.

 An operation id is cut from the request digest, and the digest stands for the request.
 */
module WriteOnce {
  import opened Bytes

  type Key = string
  type Digest = string

  datatype Service = FaultControl | BackupRestore

  /** What a crash during an exclusive create can leave behind. */
  datatype Leftover = Nothing | TornFile | WholeFile

  /** How one durable step of a call ends. */
  datatype Fate = Completes | Raises | Dies(left: Leftover)

  /** The callback: its effect may have happened however it ends. */
  datatype Effect = Returns(result: string) | Fails(status: int, code: string) | Kills

  datatype File<+T> = Torn | Whole(content: T)

  datatype Closure = Closure(digest: Digest, result: string)

  datatype Run = Run(key: Key, digest: Digest)

  datatype Answer = Response(closure: Closure, replay: bool) | Refused(status: int, code: string) | Died

  /** What the journal says about a key. */
  datatype Entry = Absent | Unreadable | Pending(digest: Digest) | Done(closure: Closure)

  /** What an exclusive create leaves where there was nothing. */
  function Created<T>(fate: Fate, content: T): Option<File<T>>
  {
    match fate
    case Completes => Some(Whole(content))
    case Raises => None
    case Dies(Nothing) => None
    case Dies(TornFile) => Some(Torn)
    case Dies(WholeFile) => Some(Whole(content))
  }

  /** The simple map the files refine only ever moves along these steps. */
  ghost predicate Advances(e: Entry, e': Entry)
  {
    e' == e || e.Absent? || (e.Pending? && e'.Done? && e'.closure.digest == e.digest)
  }

  /** What the files say of a key. */
  ghost function EntryIn(intents: map<Key, File<Digest>>, closures: map<Digest, File<Closure>>, key: Key): Entry
  {
    if key !in intents then Absent
    else match intents[key]
      case Torn => Unreadable
      case Whole(digest) =>
        if digest in closures && closures[digest].Whole? then Done(closures[digest].content) else Pending(digest)
  }

  /** Files that are only added move every other key forward. */
  lemma OthersAdvance(intents: map<Key, File<Digest>>, closures: map<Digest, File<Closure>>,
      intents': map<Key, File<Digest>>, closures': map<Digest, File<Closure>>, key: Key)
    requires forall k :: k != key ==> (k in intents' <==> k in intents) && (k in intents ==> intents'[k] == intents[k])
    requires forall d :: d in closures ==> d in closures' && closures'[d] == closures[d]
    requires forall d :: d in closures' && closures'[d].Whole? ==> closures'[d].content.digest == d
    ensures forall k :: k != key ==> Advances(EntryIn(intents, closures, k), EntryIn(intents', closures', k))
  {
  }

  ghost predicate DistinctKeys(runs: seq<Run>)
  {
    forall i, j :: 0 <= i < j < |runs| ==> runs[i].key != runs[j].key
  }

  ghost predicate DistinctDigests(runs: seq<Run>)
  {
    forall i, j :: 0 <= i < j < |runs| ==> runs[i].digest != runs[j].digest
  }

  ghost predicate Ran(runs: seq<Run>, digest: Digest)
  {
    exists i :: 0 <= i < |runs| && runs[i].digest == digest
  }

  lemma RanStays(runs: seq<Run>, more: Run)
    ensures forall d :: Ran(runs, d) || d == more.digest ==> Ran(runs + [more], d)
  {
    var all := runs + [more];
    forall d | Ran(runs, d) || d == more.digest
      ensures Ran(all, d)
    {
      if d == more.digest {
        assert all[|runs|].digest == d;
      } else {
        var i :| 0 <= i < |runs| && runs[i].digest == d;
        assert all[i].digest == d;
      }
    }
  }

  function Put<K, V>(m: map<K, V>, k: K, v: Option<V>): map<K, V>
  {
    if v.Some? then m[k := v.value] else m
  }

  class Journal {
    const service: Service
    var intents: map<Key, File<Digest>>
    var closures: map<Digest, File<Closure>>
    var directories: set<Digest>
    /** The effects that were started, in order. */
    ghost var runs: seq<Run>

    ghost predicate Valid()
      reads this
    {
      && (forall i :: 0 <= i < |runs| ==>
            runs[i].key in intents && intents[runs[i].key] == Whole(runs[i].digest))
      && DistinctKeys(runs)
      && (service == BackupRestore ==>
            DistinctDigests(runs) && forall i :: 0 <= i < |runs| ==> runs[i].digest in directories)
      && (forall d :: d in closures ==>
            Ran(runs, d) && (closures[d].Whole? ==> closures[d].content.digest == d))
    }

    constructor (service: Service)
      ensures Valid() && this.service == service && runs == []
      ensures forall k :: EntryOf(k) == Absent
    {
      this.service := service;
      intents, closures, directories, runs := map[], map[], {}, [];
    }

    ghost function EntryOf(key: Key): Entry
      reads this
    {
      EntryIn(intents, closures, key)
    }

    /** Exclusive create of an intent. */
    method CreateIntent(key: Key, digest: Digest, fate: Fate) returns (ok: bool)
      requires key !in intents
      modifies `intents
      ensures ok <==> fate == Completes
      ensures intents == (
        if fate == Completes || fate == Dies(WholeFile) then old(intents)[key := Whole(digest)]
        else if fate == Dies(TornFile) then old(intents)[key := Torn]
        else old(intents))
    {
      match fate
      case Completes => intents := intents[key := Whole(digest)]; ok := true;
      case Raises => ok := false;
      case Dies(left) =>
        if left == WholeFile { intents := intents[key := Whole(digest)]; }
        if left == TornFile { intents := intents[key := Torn]; }
        ok := false;
    }

    method CreateClosure(closure: Closure, fate: Fate) returns (ok: bool)
      requires closure.digest !in closures
      modifies `closures
      ensures ok <==> fate == Completes
      ensures closures == (
        if fate == Completes || fate == Dies(WholeFile) then old(closures)[closure.digest := Whole(closure)]
        else if fate == Dies(TornFile) then old(closures)[closure.digest := Torn]
        else old(closures))
    {
      match fate
      case Completes => closures := closures[closure.digest := Whole(closure)]; ok := true;
      case Raises => ok := false;
      case Dies(left) =>
        if left == WholeFile { closures := closures[closure.digest := Whole(closure)]; }
        if left == TornFile { closures := closures[closure.digest := Torn]; }
        ok := false;
    }

    static function Interrupted(fate: Fate): Answer
    {
      if fate.Dies? then Died else Refused(500, "INTERNAL_ERROR")
    }

    /** One call under the lock; the fates say how each durable step and the callback go. */
    method Execute(key: Key, digest: Digest, intentFate: Fate, directoryFate: Fate, effect: Effect, closureFate: Fate)
      returns (r: Answer)
      requires Valid()
      modifies this
      ensures Valid()
      // a key that was used before never runs anything and changes nothing
      ensures old(EntryOf(key)) != Absent ==>
        && runs == old(runs) && intents == old(intents) && closures == old(closures)
        && directories == old(directories)
      // ... its result is replayed as it was, and only for the same request
      ensures old(EntryOf(key)).Done? ==>
        r == if old(EntryOf(key)).closure.digest == digest then Response(old(EntryOf(key)).closure, true)
             else Refused(409, "IDEMPOTENCY_CONFLICT")
      ensures old(EntryOf(key)).Pending? && old(EntryOf(key)).digest == digest ==>
        r == if digest in old(closures) then Refused(400, "INVALID_REQUEST") else Refused(409, "INCOMPLETE_OPERATION")
      ensures old(EntryOf(key)).Unreadable? ==> r == Refused(400, "INVALID_REQUEST")
      ensures old(EntryOf(key)).Pending? && old(EntryOf(key)).digest != digest ==>
        r == Refused(409, "IDEMPOTENCY_CONFLICT")
      // a new key runs its effect at most once, and only after its intent is on record
      ensures runs == (
        if old(EntryOf(key)) == Absent && intentFate == Completes
           && (service == BackupRestore ==> digest !in old(directories) && directoryFate == Completes)
        then old(runs) + [Run(key, digest)] else old(runs))
      ensures runs != old(runs) ==> key in intents && intents[key] == Whole(digest)
      // a new key: what the intent, the directory and the closure become ...
      ensures old(EntryOf(key)) == Absent ==>
        && intents == Put(old(intents), key, Created(intentFate, digest))
        && directories == (
             if intentFate == Completes && service == BackupRestore && Created(directoryFate, ()).Some?
             then old(directories) + {digest} else old(directories))
        && closures == (
             if runs != old(runs) && effect.Returns? && digest !in old(closures)
             then Put(old(closures), digest, Created(closureFate, Closure(digest, effect.result))) else old(closures))
      // ... and the answer: the step that fails decides it, and a result that is recorded is answered
      ensures old(EntryOf(key)) == Absent && intentFate.Dies? ==> r == Died
      ensures old(EntryOf(key)) == Absent && intentFate == Raises ==> r == Refused(500, "INTERNAL_ERROR")
      ensures old(EntryOf(key)) == Absent && intentFate == Completes && runs == old(runs) ==>
        r == if digest !in old(directories) && directoryFate.Dies? then Died else Refused(500, "INTERNAL_ERROR")
      ensures old(EntryOf(key)) == Absent && runs != old(runs) && effect.Kills? ==> r == Died
      ensures old(EntryOf(key)) == Absent && runs != old(runs) && effect.Fails? ==>
        r == Refused(effect.status, effect.code)
      ensures old(EntryOf(key)) == Absent && runs != old(runs) && effect.Returns? ==>
        r == if digest in old(closures) then Refused(409, "JOURNAL_CONFLICT")
             else match closureFate
               case Completes => Response(Closure(digest, effect.result), false)
               case Raises => Refused(500, "INTERNAL_ERROR")
               case Dies(_) => Died
      ensures old(EntryOf(key)) == Absent && runs != old(runs) && effect.Returns? && digest !in old(closures) ==>
        (closureFate == Completes ==> EntryOf(key) == Done(Closure(digest, effect.result)))
      // a fresh answer is what is on record from then on
      ensures r.Response? && !r.replay ==>
        && runs == old(runs) + [Run(key, digest)] && effect == Returns(r.closure.result)
        && EntryOf(key) == Done(r.closure) && r.closure.digest == digest
      // seen through EntryOf, every key moves forward only
      ensures forall k :: k != key ==>
        Advances(old(EntryOf(k)), EntryOf(k)) && (EntryOf(k) == Absent <==> old(EntryOf(k)) == Absent)
    {
      if key in intents {
        return Replay(key, digest);
      }
      r := Begin(key, digest, intentFate, directoryFate, effect, closureFate);
    }

    /** What an effect that ran is answered with. */
    static ghost function EffectAnswer(digest: Digest, recorded: bool, effect: Effect, closureFate: Fate): Answer
    {
      match effect
      case Kills => Died
      case Fails(status, code) => Refused(status, code)
      case Returns(result) =>
        if recorded then Refused(409, "JOURNAL_CONFLICT")
        else if closureFate == Completes then Response(Closure(digest, result), false)
        else if closureFate == Raises then Refused(500, "INTERNAL_ERROR")
        else Died
    }

    /** A key that was never used: intent, exclusive directory, effect. */
    method Begin(key: Key, digest: Digest, intentFate: Fate, directoryFate: Fate, effect: Effect, closureFate: Fate)
      returns (r: Answer)
      requires Valid() && key !in intents
      modifies this
      ensures Valid()
      ensures runs == (
        if intentFate == Completes
           && (service == BackupRestore ==> digest !in old(directories) && directoryFate == Completes)
        then old(runs) + [Run(key, digest)] else old(runs))
      ensures runs != old(runs) ==> key in intents && intents[key] == Whole(digest)
      ensures
        && intents == Put(old(intents), key, Created(intentFate, digest))
        && directories == (
             if intentFate == Completes && service == BackupRestore && Created(directoryFate, ()).Some?
             then old(directories) + {digest} else old(directories))
        && closures == (
             if runs != old(runs) && effect.Returns? && digest !in old(closures)
             then Put(old(closures), digest, Created(closureFate, Closure(digest, effect.result))) else old(closures))
      ensures intentFate.Dies? ==> r == Died
      ensures intentFate == Raises ==> r == Refused(500, "INTERNAL_ERROR")
      ensures intentFate == Completes && runs == old(runs) ==>
        r == if digest !in old(directories) && directoryFate.Dies? then Died else Refused(500, "INTERNAL_ERROR")
      ensures runs != old(runs) ==> r == EffectAnswer(digest, digest in old(closures), effect, closureFate)
      ensures r.Response? ==>
        && !r.replay && runs == old(runs) + [Run(key, digest)] && effect == Returns(r.closure.result)
        && EntryOf(key) == Done(r.closure) && r.closure.digest == digest
      ensures forall k :: k != key ==> (k in intents <==> k in old(intents)) && Advances(old(EntryOf(k)), EntryOf(k))
    {
      var stopped := Announce(key, digest, intentFate, directoryFate);
      r := if stopped.Some? then stopped.value else Died;
      if stopped.None? { r := RunEffect(key, digest, effect, closureFate); }
      OthersAdvance(old(intents), old(closures), intents, closures, key);
    }

    /** The intent, and for backups the exclusive directory; an answer if the call ends with them. */
    method Announce(key: Key, digest: Digest, intentFate: Fate, directoryFate: Fate) returns (stopped: Option<Answer>)
      requires Valid() && key !in intents
      modifies `intents, `directories
      ensures Valid() && intents == Put(old(intents), key, Created(intentFate, digest))
      ensures directories == (
        if intentFate == Completes && service == BackupRestore && Created(directoryFate, ()).Some?
        then old(directories) + {digest} else old(directories))
      ensures stopped.None? <==>
        intentFate == Completes
            && (service == BackupRestore ==> digest !in old(directories) && directoryFate == Completes)
      ensures intentFate.Dies? ==> stopped == Some(Died)
      ensures intentFate == Raises ==> stopped == Some(Refused(500, "INTERNAL_ERROR"))
      ensures intentFate == Completes && stopped.Some? ==>
        stopped.value == if digest !in old(directories) && directoryFate.Dies? then Died
            else Refused(500, "INTERNAL_ERROR")
    {
      var created := CreateIntent(key, digest, intentFate);
      if !created { return Some(Interrupted(intentFate)); }
      if service == BackupRestore {
        if digest in directories { return Some(Refused(500, "INTERNAL_ERROR")); }
        if directoryFate != Raises && directoryFate != Dies(Nothing) { directories := directories + {digest}; }
        if directoryFate != Completes { return Some(Interrupted(directoryFate)); }
      }
      return None;
    }

    /** The effect and its closure. */
    method RunEffect(key: Key, digest: Digest, effect: Effect, closureFate: Fate) returns (r: Answer)
      requires Valid() && key in intents && intents[key] == Whole(digest)
      requires forall i :: 0 <= i < |runs| ==> runs[i].key != key
      requires service == BackupRestore ==> digest in directories && !Ran(runs, digest)
      modifies `runs, `closures
      ensures Valid() && runs == old(runs) + [Run(key, digest)]
      ensures closures == (
        if effect.Returns? && digest !in old(closures)
        then Put(old(closures), digest, Created(closureFate, Closure(digest, effect.result))) else old(closures))
      ensures r == EffectAnswer(digest, digest in old(closures), effect, closureFate)
      ensures r.Response? ==>
        && !r.replay && effect == Returns(r.closure.result)
        && EntryOf(key) == Done(r.closure) && r.closure.digest == digest
      ensures forall d :: d != digest ==> (d in closures <==> d in old(closures))
      ensures forall d :: d in old(closures) ==> d in closures && closures[d] == old(closures)[d]
    {
      RanStays(runs, Run(key, digest));
      runs := runs + [Run(key, digest)];
      match effect
      case Kills => return Died;
      case Fails(status, code) => return Refused(status, code);
      case Returns(result) =>
        if digest in closures { return Refused(409, "JOURNAL_CONFLICT"); }
        var closure := Closure(digest, result);
        var closed := CreateClosure(closure, closureFate);
        if !closed { return Interrupted(closureFate); }
        return Response(closure, false);
    }

    /** The branch for a key whose intent exists. */
    function Replay(key: Key, digest: Digest): Answer
      requires key in intents
      reads this
    {
      match intents[key]
      case Torn => Refused(400, "INVALID_REQUEST")
      case Whole(recorded) =>
        if recorded != digest then Refused(409, "IDEMPOTENCY_CONFLICT")
        else if digest !in closures then Refused(409, "INCOMPLETE_OPERATION")
        else match closures[digest]
          case Torn => Refused(400, "INVALID_REQUEST")
          case Whole(closure) => Response(closure, true)
    }

    /** The stored result of an operation, by its id. */
    method Lookup(digest: Digest) returns (r: Answer)
      requires Valid()
      ensures r.Response? <==> digest in closures && closures[digest].Whole?
      ensures r.Response? ==> r == Response(closures[digest].content, true) && r.closure.digest == digest
      ensures r.Response? ==> Ran(runs, digest)
      ensures digest !in closures ==>
        r == if service == FaultControl then Refused(409, "INCOMPLETE_OPERATION") else Refused(404, "NOT_FOUND")
      ensures digest in closures && closures[digest].Torn? ==> r == Refused(400, "INVALID_REQUEST")
    {
      if digest !in closures {
        return if service == FaultControl then Refused(409, "INCOMPLETE_OPERATION") else Refused(404, "NOT_FOUND");
      }
      match closures[digest]
      case Torn => return Refused(400, "INVALID_REQUEST");
      case Whole(closure) => return Response(closure, true);
    }

    /** Any number of calls, with crashes anywhere in them. */
    method Serve(calls: seq<Call>)
      requires Valid()
      modifies this
      ensures Valid() && |old(runs)| <= |runs| && old(runs) == runs[..|old(runs)|]
      ensures DistinctKeys(runs)
      ensures service == BackupRestore ==> DistinctDigests(runs)
      ensures forall k :: Advances(old(EntryOf(k)), EntryOf(k))
    {
      for i := 0 to |calls|
        invariant Valid() && |old(runs)| <= |runs| && old(runs) == runs[..|old(runs)|]
        invariant forall k :: Advances(old(EntryOf(k)), EntryOf(k))
      {
        var c := calls[i];
        var _ := Execute(c.key, c.digest, c.intentFate, c.directoryFate, c.effect, c.closureFate);
      }
    }
  }

  datatype Call = Call(
    key: Key, digest: Digest, intentFate: Fate, directoryFate: Fate, effect: Effect, closureFate: Fate)

  /** Fault control does run one operation twice, under two keys. */
  method TwoKeysTwoRuns(digest: Digest) returns (journal: Journal)
    ensures journal.service == FaultControl
    ensures |journal.runs| == 2 && journal.runs[0].digest == journal.runs[1].digest
  {
    journal := new Journal(FaultControl);
    var first := journal.Execute("first", digest, Completes, Completes, Returns(""), Completes);
    var second := journal.Execute("second", digest, Completes, Completes, Returns(""), Completes);
  }
}
