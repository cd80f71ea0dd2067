/**
 The deployment a failover provider drives, the answers its commands can get, and the provider's
 operation records (failover-provider/provider.py). The environment is a sequence of answers, one
 per command; when it runs out the process is killed at that point.
 */
module FailoverWorld {
  import opened Bytes

  datatype Route = OldSide | Nowhere | Standby

  /**
   active, primary, signer: the workload runs (on Kubernetes, signer is its requested replica).
   recovery: the standby database still follows. flush: the primary's durable write position;
   replay: how far the standby has applied it.
   */
  datatype World = World(
    active: bool, primary: bool, signer: bool, recovery: bool,
    flush: nat, replay: nat, database: Route, application: Route)

  /**
   What one command meets: first the world drifts (workloads die by themselves, the primary writes,
   the standby applies), then the command takes effect or not, and reports success or not.
   */
  datatype Answer = Answer(
    activeDies: bool, primaryDies: bool, signerDies: bool, written: nat, applied: nat, keepsUp: bool,
    effect: bool, ok: bool,
    observed: bool,
    synchronous: bool,
    now: nat)

  function Drift(w: World, a: Answer): World
  {
    var flush := if w.primary then w.flush + a.written else w.flush;
    w.(active := w.active && !a.activeDies,
       primary := w.primary && !a.primaryDies,
       signer := w.signer && !a.signerDies,
       flush := flush,
       replay := if w.recovery && w.replay < flush then
                   if !a.keepsUp && w.replay + a.applied < flush then w.replay + a.applied else flush
                 else w.replay)
  }

  datatype Outcome<+T> = Done(value: T) | Refused(status: int, code: string) | Crashed
  {
    predicate IsFailure() { !Done? }

    function PropagateFailure<U>(): Outcome<U>
      requires IsFailure()
    {
      match this
      case Refused(status, code) => Refused(status, code)
      case Crashed => Crashed
    }

    function Extract(): T
      requires !IsFailure()
    {
      value
    }
  }

  /** No command brings a stopped workload or recovery back, and positions only grow. */
  ghost predicate Later(w: World, w': World)
  {
    && (w'.active ==> w.active) && (w'.primary ==> w.primary) && (w'.recovery ==> w.recovery)
    && w.flush <= w'.flush && w.replay <= w'.replay
  }

  /** The old side is stopped, the standby leads, and it holds everything up to the target. */
  ghost predicate Fenced(w: World, target: nat)
  {
    !w.active && !w.primary && !w.recovery && target <= w.replay
  }

  // ---- operation records ----

  datatype Request = Request(candidate: string, activeId: string, standbyId: string, failedWitnesses: int)

  datatype Phase = PREPARING | PREPARED | COMMITTED

  datatype PrepareResponse = PrepareResponse(operation: string, target: nat, replay: nat, signerActive: bool)

  datatype CommitResponse = CommitResponse(
    operation: string, writer: string, rtoSeconds: int, capturedAt: nat, committedAt: nat)

  datatype CommitKey = CommitKey(key: string, ownerHash: string)

  /** A hash that is only ever compared for equality is represented by what it is a hash of. */
  datatype Operation = Operation(
    key: string, request: Request, phase: Phase,
    target: Option<nat>, capturedAt: Option<nat>,
    prepared: Option<PrepareResponse>,
    commitKey: Option<CommitKey>,
    committed: Option<CommitResponse>)

  type Operations = map<string, Operation>

  function Rank(phase: Phase): nat
  {
    match phase case PREPARING => 0 case PREPARED => 1 case COMMITTED => 2
  }

  ghost predicate Kept<T(!new)>(before: Option<T>, after: Option<T>)
  {
    before.Some? ==> after == before
  }

  /** What was recorded stays recorded: nothing is replaced and the phase never goes back. */
  ghost predicate OperationForward(o: Operation, o': Operation)
  {
    && o'.key == o.key && o'.request == o.request && Rank(o.phase) <= Rank(o'.phase)
    && Kept(o.target, o'.target) && Kept(o.capturedAt, o'.capturedAt)
    && Kept(o.prepared, o'.prepared) && Kept(o.commitKey, o'.commitKey) && Kept(o.committed, o'.committed)
  }

  ghost predicate Forward(ops: Operations, ops': Operations)
  {
    forall id :: id in ops ==> id in ops' && OperationForward(ops[id], ops'[id])
  }

  ghost predicate OperationOk(id: string, o: Operation, w: World)
  {
    && o.request.candidate == id
    && (o.target.Some? <==> o.capturedAt.Some?)
    && (o.target.Some? ==> o.target.value <= w.flush)
    && (o.phase == PREPARING <==> o.prepared.None?)
    && (o.prepared.Some? ==>
          && o.target.Some? && o.prepared.value.target == o.target.value
          && o.prepared.value.target <= o.prepared.value.replay
          && o.prepared.value.operation == id && !o.prepared.value.signerActive
          && Fenced(w, o.target.value))
    && (o.phase == COMMITTED <==> o.committed.Some?)
    && (o.commitKey.Some? ==> o.phase != PREPARING)
    && (o.committed.Some? ==> o.commitKey.Some? && o.committed.value.operation == id)
  }

  ghost predicate OperationsOk(ops: Operations, w: World)
  {
    forall id :: id in ops ==> OperationOk(id, ops[id], w)
  }

  lemma OperationsStay(ops: Operations, w: World, w': World)
    requires OperationsOk(ops, w) && Later(w, w')
    ensures OperationsOk(ops, w')
  {
    forall id | id in ops
      ensures OperationOk(id, ops[id], w')
    {
      assert OperationOk(id, ops[id], w);
    }
  }

  lemma ForwardSame(ops: Operations)
    ensures Forward(ops, ops)
  {
  }

  lemma ForwardTransitive(a: Operations, b: Operations, c: Operations)
    requires Forward(a, b) && Forward(b, c)
    ensures Forward(a, c)
  {
    forall id | id in a
      ensures id in c && OperationForward(a[id], c[id])
    {
      assert id in b && OperationForward(a[id], b[id]);
      assert OperationForward(b[id], c[id]);
    }
  }

  /** Only one operation was added or changed. */
  ghost predicate OnlyAt(ops: Operations, ops': Operations, id: string)
  {
    forall other :: other != id ==>
      && (other in ops <==> other in ops')
      && (other in ops ==> ops'[other] == ops[other])
  }

  lemma OneForward(before: Operations, after: Operations, id: string)
    requires id in before && OnlyAt(before, after, id) && id in after && OperationForward(before[id], after[id])
    ensures Forward(before, after)
  {
  }

  // ---- idempotency keys ----

  predicate SafeChar(c: char)
  {
    'a' <= c <= 'z' || '0' <= c <= '9'
  }

  /** 8 to 200 of [a-z0-9._:-], the first of them a letter or digit. */
  predicate SafeId(s: string)
  {
    8 <= |s| <= 200 && SafeChar(s[0]) &&
    forall i :: 0 <= i < |s| ==> SafeChar(s[i]) || s[i] in {'.', '_', ':', '-'}
  }

  /** The same, letter by letter. */
  lemma SafeIdIs(s: string)
    ensures SafeId(s) <==>
      && 8 <= |s| <= 200 && s[0] in "abcdefghijklmnopqrstuvwxyz0123456789"
      && forall i :: 0 <= i < |s| ==> s[i] in "abcdefghijklmnopqrstuvwxyz0123456789._:-"
  {
    forall c: char
      ensures SafeChar(c) <==> c in "abcdefghijklmnopqrstuvwxyz0123456789"
      ensures SafeChar(c) || c in {'.', '_', ':', '-'} <==> c in "abcdefghijklmnopqrstuvwxyz0123456789._:-"
    {
      Letters(c);
    }
  }

  lemma Letters(c: char)
    ensures SafeChar(c) <==> c in "abcdefghijklmnopqrstuvwxyz0123456789"
    ensures SafeChar(c) || c in {'.', '_', ':', '-'} <==> c in "abcdefghijklmnopqrstuvwxyz0123456789._:-"
  {
  }

  // ---- calm environments ----

  /** Nothing dies, every command works, the standby keeps up. */
  ghost predicate Calm(a: Answer)
  {
    !a.activeDies && !a.primaryDies && !a.signerDies && a.effect && a.ok && a.observed
    && a.synchronous && a.keepsUp
  }

  ghost predicate AllCalm(answers: seq<Answer>)
  {
    forall i :: 0 <= i < |answers| ==> Calm(answers[i])
  }

  /** The primary does not die by itself. */
  ghost predicate PrimarySurvives(answers: seq<Answer>)
  {
    forall i :: 0 <= i < |answers| ==> !answers[i].primaryDies
  }

  /** The commands that neither take effect nor report that they did. */
  function Losses(answers: seq<Answer>): nat
  {
    if answers == [] then 0
    else (if !answers[0].effect && !answers[0].ok then 1 else 0) + Losses(answers[1..])
  }

  /** At most k answers were used; what is left of a calm environment is calm. */
  ghost predicate Spent(before: seq<Answer>, after: seq<Answer>, k: nat)
  {
    && |after| <= |before| <= |after| + k
    && (AllCalm(before) ==> AllCalm(after))
    && (PrimarySurvives(before) ==> PrimarySurvives(after))
    && Losses(after) <= Losses(before)
  }

  /** What happens while a command that stops nothing waits for its answer. */
  ghost predicate Drifted(w: World, w': World)
  {
    && Later(w, w') && (w'.signer ==> w.signer)
    && w'.recovery == w.recovery && w'.database == w.database && w'.application == w.application
  }

  /** The world after the first k answers, if nothing but the environment moves it. */
  ghost function AllDrift(w: World, given: seq<Answer>, k: nat): World
    requires k <= |given|
  {
    if k == 0 then w else Drift(AllDrift(w, given, k - 1), given[k - 1])
  }

  /** Commands that only look: the answers they used came in order, and only the environment moved the world. */
  ghost predicate Watched(w: World, given: seq<Answer>, w': World, left: seq<Answer>)
  {
    && |left| <= |given| && left == given[|given| - |left|..]
    && w' == AllDrift(w, given, |given| - |left|)
  }

  lemma {:induction false} AllDriftThen(w: World, given: seq<Answer>, j: nat, k: nat)
    requires j + k <= |given|
    ensures AllDrift(w, given, j + k) == AllDrift(AllDrift(w, given, j), given[j..], k)
  {
    if k > 0 { AllDriftThen(w, given, j, k - 1); }
  }

  lemma WatchedThen(w: World, given: seq<Answer>, w': World, left: seq<Answer>, w'': World, rest: seq<Answer>)
    requires Watched(w, given, w', left) && Watched(w', left, w'', rest)
    ensures Watched(w, given, w'', rest)
  {
    AllDriftThen(w, given, |given| - |left|, |left| - |rest|);
  }

  lemma {:induction false} DriftsOnly(w: World, given: seq<Answer>, k: nat)
    requires k <= |given|
    ensures Drifted(w, AllDrift(w, given, k))
    ensures PrimarySurvives(given) ==> AllDrift(w, given, k).primary == w.primary
    decreases k
  {
    if k > 0 { DriftsOnly(w, given, k - 1); }
  }

  lemma {:induction false} LossesLeft(given: seq<Answer>, k: nat)
    requires k <= |given|
    ensures Losses(given[k..]) <= Losses(given)
    decreases k
  {
    if k > 0 {
      LossesLeft(given[1..], k - 1);
      assert given[1..][k - 1..] == given[k..];
    }
  }

  lemma WatchedMeans(w: World, given: seq<Answer>, w': World, left: seq<Answer>, k: nat)
    requires Watched(w, given, w', left) && |given| <= |left| + k
    ensures Drifted(w, w') && Spent(given, left, k)
    ensures PrimarySurvives(given) ==> w'.primary == w.primary
  {
    DriftsOnly(w, given, |given| - |left|);
    LossesLeft(given, |given| - |left|);
  }

  // ---- the gates of a prepare ----

  /** A health endpoint, or the standby's, answers as it should. */
  predicate Healthy(a: Answer)
  {
    a.ok && a.observed
  }

  /** Of the answers met so far, the k before the last n were healthy. */
  ghost predicate HealthyBefore(heard: seq<Answer>, n: nat, k: nat)
  {
    |heard| >= n + k && forall i :: |heard| - n - k <= i < |heard| - n ==> Healthy(heard[i])
  }

  /** Among the answers met, one showed a synchronous standby and the next one told this time. */
  ghost predicate CapturedIn(heard: seq<Answer>, at: Option<nat>)
  {
    exists k :: 0 <= k < |heard| - 1 && CapturedAt(heard[k], heard[k + 1], at)
  }

  lemma CapturedMore(heard: seq<Answer>, more: seq<Answer>, at: Option<nat>)
    requires CapturedIn(heard, at)
    ensures CapturedIn(heard + more, at)
  {
    var k :| 0 <= k < |heard| - 1 && CapturedAt(heard[k], heard[k + 1], at);
    var later := heard + more;
    assert later[k] == heard[k] && later[k + 1] == heard[k + 1];
  }

  ghost predicate CapturedAt(shown: Answer, told: Answer, at: Option<nat>)
  {
    shown.ok && shown.synchronous && told.ok && at == Some(told.now)
  }

  /** A witness answers and does not see the active coordinator failed. */
  predicate Vetoes(a: Answer)
  {
    a.ok && !a.observed
  }

  /** Every witness was polled, and none vetoes. */
  ghost predicate Unanimous(witnesses: nat, polled: seq<Answer>)
  {
    |polled| >= witnesses && forall i :: 0 <= i < witnesses ==> !Vetoes(polled[i])
  }

  /** One of the witnesses that were polled vetoes. */
  ghost predicate Vetoing(witnesses: nat, polled: seq<Answer>)
  {
    exists i :: 0 <= i < witnesses && i < |polled| && Vetoes(polled[i])
  }

  /** The witnesses are independent, there are at least two, as many as the request says, and none vetoes. */
  ghost predicate WitnessesAgree(witnesses: nat, request: Request, given: seq<Answer>)
  {
    && given != [] && Healthy(given[0]) && 2 <= witnesses == request.failedWitnesses
    && Unanimous(witnesses, given[1..])
  }

  /** ... and the standby is safe. */
  ghost predicate Gated(witnesses: nat, request: Request, given: seq<Answer>)
  {
    WitnessesAgree(witnesses, request, given) && |given| > witnesses + 1 && Healthy(given[witnesses + 1])
  }

  /** The independence probe passes, and one of the witnesses polled after it vetoes. */
  ghost predicate Vetoed(witnesses: nat, given: seq<Answer>)
  {
    given != [] && Healthy(given[0]) && Vetoing(witnesses, given[1..])
  }

  /** The answers that the gates meet: a new operation is saved first. */
  ghost function AfterOpening(known: bool, given: seq<Answer>): seq<Answer>
  {
    if known || given == [] then given else given[1..]
  }
}
