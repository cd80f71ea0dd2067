/**
 The failover provider of failover-provider/provider.py: two-phase prepare and commit over a durable
 operation file, driving Docker or Kubernetes commands any of which can fail or be the last.
 */
module FailoverProvider {
  import opened Bytes
  import opened FailoverWorld
  import opened Text

  datatype Platform = Docker | Kubernetes

  datatype Config = Config(
    platform: Platform, activeId: string, standbyId: string, witnesses: nat, signerRoles: nat, polls: nat)

  datatype Workload = ActiveApp | PrimaryDb

  function IsUp(w: World, workload: Workload): bool
  {
    match workload case ActiveApp => w.active case PrimaryDb => w.primary
  }

  function Stopped(w: World, workload: Workload): World
  {
    match workload case ActiveApp => w.(active := false) case PrimaryDb => w.(primary := false)
  }

  datatype Service = Database | Application

  function RouteOf(w: World, service: Service): Route
  {
    match service case Database => w.database case Application => w.application
  }

  function Routed(w: World, service: Service, route: Route): World
  {
    match service case Database => w.(database := route) case Application => w.(application := route)
  }

  /** Milliseconds from capture to commit, rounded up to seconds: -(-elapsed // 1000). */
  function RtoSeconds(capturedAt: nat, committedAt: nat): int
  {
    var elapsed := if committedAt > capturedAt then committedAt - capturedAt else 0;
    -((-elapsed) / 1000)
  }

  /** The least whole number of seconds that is not shorter than the time between, and none if that is negative. */
  ghost predicate RoundedUp(seconds: int, capturedAt: nat, committedAt: nat)
  {
    if committedAt <= capturedAt then seconds == 0
    else 1000 * (seconds - 1) < committedAt - capturedAt <= 1000 * seconds
  }

  lemma RtoRoundsUp(capturedAt: nat, committedAt: nat)
    ensures RoundedUp(RtoSeconds(capturedAt, committedAt), capturedAt, committedAt)
  {
  }

  /** The standby has applied the target, or still follows a primary that had written it. */
  ghost predicate CanReplay(w: World, target: nat)
  {
    target <= w.flush && (w.recovery || target <= w.replay)
  }

  /** No failed prepare of this operation can have cost it its way forward. */
  ghost predicate Resumable(ops: Operations, id: string, w: World)
  {
    if id in ops && ops[id].target.Some? then w.recovery || ops[id].target.value <= w.replay
    else w.primary && w.recovery
  }

  function TargetOf(ops: Operations, id: string): Option<nat>
  {
    if id in ops then ops[id].target else None
  }

  /** The recorded target of one operation is not past that of another, or that is still to be read. */
  ghost predicate NotPast(ops: Operations, id: string, other: string)
  {
    && TargetOf(ops, id).Some?
    && (TargetOf(ops, other).Some? ==> TargetOf(ops, id).value <= TargetOf(ops, other).value)
  }

  /** No target is on record and none can be read any more. */
  ghost predicate Blocked(ops: Operations, id: string, w: World)
  {
    (id in ops ==> ops[id].target == None && ops[id].phase == PREPARING) && !w.primary
  }

  /** The operation is on record as prepared or committed. */
  ghost predicate Says(ops: Operations, id: string)
  {
    id in ops && ops[id].phase != PREPARING
  }

  /** It is, with a target at or before this position. */
  ghost predicate Recorded(ops: Operations, id: string, replay: nat)
  {
    Says(ops, id) && ops[id].target.Some? && ops[id].target.value <= replay
  }

  /** Only the target of one operation was recorded. */
  ghost predicate OnlyTarget(ops: Operations, ops': Operations, id: string)
  {
    && id in ops && ops'.Keys == ops.Keys
    && (forall other :: other in ops && other != id ==> ops'[other] == ops[other])
    && (ops'[id] == ops[id] ||
        (ops[id].target == None && ops'[id] == ops[id].(target := ops'[id].target, capturedAt := ops'[id].capturedAt)))
  }

  /** What a prepare call is refused for before any operation is looked up. */
  function Refusal(config: Config, key: string, request: Request): Option<(int, string)>
  {
    if !SafeId(key) then Some((400, "invalid-idempotency-key"))
    else if !SafeId(request.candidate) then Some((400, "invalid-request"))
    else if request.activeId != config.activeId || request.standbyId != config.standbyId then
      Some((409, "topology-mismatch"))
    else None
  }

  /** A call is malformed, or for another topology, or none of that; which of them is told first. */
  lemma RefusalIs(config: Config, key: string, request: Request)
    ensures Refusal(config, key, request).None? <==>
      SafeId(key) && SafeId(request.candidate)
      && request.activeId == config.activeId && request.standbyId == config.standbyId
    ensures !SafeId(key) ==> Refusal(config, key, request) == Some((400, "invalid-idempotency-key"))
    ensures SafeId(key) && !SafeId(request.candidate)
      ==> Refusal(config, key, request) == Some((400, "invalid-request"))
    ensures SafeId(key) && SafeId(request.candidate) && Refusal(config, key, request).Some? ==>
      Refusal(config, key, request) == Some((409, "topology-mismatch"))
  {
  }

  /** The next answer is that of a save that raises without having written. */
  ghost predicate LostBy(answers: seq<Answer>)
  {
    answers != [] && !answers[0].effect && !answers[0].ok
  }

  datatype Call =
    | Boot(answers: seq<Answer>)
    | PrepareCall(key: string, request: Request)
    | CommitCall(id: string, key: string, ownerHash: string, now: nat)

  /** Each save that is lost was a lost command, and a call that loses one does nothing more. */
  ghost predicate Owes(before: nat, given: seq<Answer>, after: nat, left: seq<Answer>, done: bool)
  {
    after + Losses(left) <= before + Losses(given) && after <= before + (if done then 0 else 1)
  }

  /** How often the signer was started, whether the last time unrecorded, and whether it runs. */
  datatype Starts = Starts(count: nat, unrecorded: bool, running: bool)

  /** Any start in between was recorded as one that the file did, or did not, account for. */
  ghost predicate StartsAre(before: Starts, after: Starts, unaccounted: bool)
  {
    && before.count <= after.count
    && (before.count == after.count ==> after.unrecorded == before.unrecorded && (after.running ==> before.running))
    && (before.count < after.count ==> after.unrecorded == unaccounted)
  }

  lemma StartsThen(before: Starts, between: Starts, after: Starts, unaccounted: bool)
    requires StartsAre(before, between, unaccounted)
    requires after == between.(running := after.running) && (after.running ==> between.running)
    ensures StartsAre(before, after, unaccounted)
  {
  }

  lemma StartsAfter(before: Starts, between: Starts, after: Starts, unaccounted: bool)
    requires between == before.(running := between.running) && (between.running ==> before.running)
    requires StartsAre(between, after, unaccounted)
    ensures StartsAre(before, after, unaccounted)
  {
  }

  /** A call of prepare, made by a new process or by the one that is there. */
  datatype Attempt = Attempt(restart: bool, answers: seq<Answer>)

  /** How many saves a process can have lost in a row after a call. */
  function LagAfter(call: Call, before: nat): nat
  {
    if call.Boot? then 0 else before + 1
  }

  /** A process that is started with at most one failing command ahead. */
  ghost predicate Mild(call: Call)
  {
    call.Boot? ==> Losses(call.answers) < 2
  }

  /**
   An attempt at a call: whether a new process made it, the operations it started from, the file and the
   world it found, and its answer.
   */
  datatype Tried<+T> = Tried(anew: bool, memory: Operations, file: Operations, world: World, answer: Outcome<T>)

  /**
   One attempt after another: a new process is started when one is asked for or the last one died, and
   starts from the file; the same one goes on from its memory. Files, memories and the world only go forward.
   */
  ghost predicate Linked<T(!new)>(attempt: Attempt, before: Option<Tried<T>>, now: Tried<T>)
  {
    && (now.anew <==> attempt.restart || (before.Some? && before.value.answer.Crashed?))
    && (now.anew ==> now.memory == now.file)
    && (before.Some? ==>
          && Forward(before.value.file, now.file) && Later(before.value.world, now.world)
          && (!now.anew ==> Forward(before.value.memory, now.memory)))
  }

  /** The attempts, in order, from these files and this world on. */
  ghost predicate Traced<T(!new)>(attempts: seq<Attempt>, tried: seq<Tried<T>>, memory: Operations, file: Operations,
      w: World)
  {
    && |tried| == |attempts|
    && (tried != [] ==> tried[0].file == file && tried[0].world == w && (!tried[0].anew ==> tried[0].memory == memory))
    && forall i :: 0 <= i < |tried| ==> LinkedAt(attempts, tried, i)
  }

  ghost predicate LinkedAt<T(!new)>(attempts: seq<Attempt>, tried: seq<Tried<T>>, i: nat)
    requires i < |tried| <= |attempts|
  {
    Linked(attempts[i], if i == 0 then None else Some(tried[i - 1]), tried[i])
  }

  /** What holds after the last attempt. */
  ghost predicate Reached<T(!new)>(tried: seq<Tried<T>>, memory: Operations, file: Operations, w: World)
  {
    tried != [] ==>
      var t := tried[|tried| - 1];
      Forward(t.memory, memory) && Forward(t.file, file) && Later(t.world, w)
  }

  lemma TracedMore<T(!new)>(attempts: seq<Attempt>, tried: seq<Tried<T>>, memory: Operations, file: Operations,
                            w: World, attempt: Attempt, now: Tried<T>)
    requires Traced(attempts, tried, memory, file, w)
    requires tried == [] ==> now.file == file && now.world == w && (!now.anew ==> now.memory == memory)
    requires Linked(attempt, if tried == [] then None else Some(tried[|tried| - 1]), now)
    ensures Traced(attempts + [attempt], tried + [now], memory, file, w)
  {
    var attempts', tried' := attempts + [attempt], tried + [now];
    forall i | 0 <= i < |tried'|
      ensures LinkedAt(attempts', tried', i)
    {
      if i < |tried| { assert LinkedAt(attempts, tried, i); }
    }
  }

  /** A new process found no target in the file and the primary down. */
  ghost predicate StrandedAt(t: Tried<PrepareResponse>, id: string)
  {
    t.anew && Blocked(t.file, id, t.world)
  }

  ghost predicate Strands(tried: seq<Tried<PrepareResponse>>, id: string)
  {
    exists i :: 0 <= i < |tried| && StrandedAt(tried[i], id)
  }

  lemma StrandsMore(tried: seq<Tried<PrepareResponse>>, now: Tried<PrepareResponse>, id: string)
    ensures Strands(tried + [now], id) <==> Strands(tried, id) || StrandedAt(now, id)
  {
    var tried' := tried + [now];
    if Strands(tried, id) {
      var i :| 0 <= i < |tried| && StrandedAt(tried[i], id);
      assert StrandedAt(tried'[i], id);
    }
    if StrandedAt(now, id) { assert StrandedAt(tried'[|tried|], id); }
  }

  /** A new process found a file that does not say that the operation is prepared. */
  ghost predicate ForgottenAt(t: Tried<CommitResponse>, id: string)
  {
    t.anew && !Says(t.file, id)
  }

  ghost predicate Forgets(tried: seq<Tried<CommitResponse>>, id: string)
  {
    exists i :: 0 <= i < |tried| && ForgottenAt(tried[i], id)
  }

  lemma ForgetsMore(tried: seq<Tried<CommitResponse>>, now: Tried<CommitResponse>, id: string)
    ensures Forgets(tried + [now], id) <==> Forgets(tried, id) || ForgottenAt(now, id)
  {
    var tried' := tried + [now];
    if Forgets(tried, id) {
      var i :| 0 <= i < |tried| && ForgottenAt(tried[i], id);
      assert ForgottenAt(tried'[i], id);
    }
    if ForgottenAt(now, id) { assert ForgottenAt(tried'[|tried|], id); }
  }

  class Provider {
    const config: Config
    /** The operations the process works on, and the ones in its state file. */
    var operations: Operations
    var disk: Operations
    var world: World
    var answers: seq<Answer>
    /** The answers met so far. */
    ghost var heard: seq<Answer>
    /** How many saves raised without writing since the process last agreed with its file. */
    ghost var behind: nat
    /** How often the signer was started, and for which target the last time. */
    ghost var starts: nat
    ghost var fence: Option<nat>
    /** ... and whether the file did not say by then that the operation was prepared. */
    ghost var unrecorded: bool

    ghost predicate SignerJustified()
      reads this
    {
      world.signer ==>
        && fence.Some? && Fenced(world, fence.value)
        && (!unrecorded ==> exists id :: Says(disk, id) && disk[id].target == fence)
    }

    /** What the state file and the deployment satisfy, whether or not a process lives. */
    ghost predicate Durable()
      reads this
    {
      OperationsOk(disk, world) && SignerJustified()
    }

    /** ... what a process adds to it: it is never behind the file ... */
    ghost predicate Consistent()
      reads this
    {
      Durable() && OperationsOk(operations, world) && Forward(disk, operations)
    }

    /** What is prepared in memory only took one lost save, and what is also bound to its commit took two. */
    ghost predicate Lags(saves: nat)
      reads this
    {
      forall id :: Says(operations, id) && !Says(disk, id) ==> saves >= if operations[id].commitKey.Some? then 2 else 1
    }

    /** ... and between calls it is ahead only by lost saves. */
    ghost predicate Valid()
      reads this
    {
      Consistent() && (behind == 0 ==> disk == operations) && Lags(behind)
    }

    /** The target of an operation is in memory and not in the file. */
    ghost predicate Exposed(id: string)
      reads this
    {
      id in operations && operations[id].target.Some? && !(id in disk && disk[id].target.Some?)
    }

    constructor (config: Config, world: World, answers: seq<Answer>)
      requires !world.signer
      ensures Valid() && this.config == config && this.world == world && this.answers == answers
      ensures operations == map[] && disk == map[] && behind == 0 && !unrecorded
    {
      this.config, this.world, this.answers := config, world, answers;
      operations, disk, heard, behind, starts, fence, unrecorded := map[], map[], [], 0, 0, None, false;
    }

    /** A new process reads the state file. */
    method Restart(answers: seq<Answer>)
      requires Durable()
      modifies `operations, `answers, `behind
      ensures Valid() && operations == disk && this.answers == answers && behind == 0
    {
      operations, this.answers, behind := disk, answers, 0;
    }

    twostate lemma DurableKept()
      requires old(Durable()) && Later(old(world), world) && (world.signer ==> old(world).signer)
      requires disk == old(disk) && unrecorded == old(unrecorded) && fence == old(fence)
      ensures Durable()
    {
      OperationsStay(disk, old(world), world);
    }

    twostate lemma ValidKept()
      requires old(Valid()) && Later(old(world), world) && (world.signer ==> old(world).signer)
      requires disk == old(disk) && unrecorded == old(unrecorded) && fence == old(fence)
      requires operations == old(operations) && behind == old(behind)
      ensures Valid()
    {
      DurableKept();
      OperationsStay(operations, old(world), world);
    }

    // ---- commands ----

    /** One command meets its answer; without one the process is gone. */
    method Step() returns (r: Outcome<Answer>)
      modifies `world, `answers, `heard
      ensures old(answers) == [] ==> r == Crashed && world == old(world) && answers == [] && heard == old(heard)
      ensures old(answers) != [] ==> r == Done(old(answers)[0]) && world == Drift(old(world), r.value)
      ensures old(answers) != [] ==> answers == old(answers)[1..] && heard == old(heard) + [r.value]
      ensures Drifted(old(world), world) && Spent(old(answers), answers, 1)
      ensures Losses(old(answers)) == Losses(answers) + (if LostBy(old(answers)) then 1 else 0)
      ensures PrimarySurvives(old(answers)) ==> world.primary == old(world).primary
      ensures AllCalm(old(answers)) ==> world.signer == old(world).signer
      ensures r.Done? && AllCalm(old(answers)) ==>
        Calm(r.value) && (world.recovery ==> world.flush <= world.replay)
      ensures !r.Refused?
      ensures Watched(old(world), old(answers), world, answers)
    {
      if answers == [] { return Crashed; }
      var a := answers[0];
      answers, heard := answers[1..], heard + [a];
      world := Drift(world, a);
      assert AllDrift(old(world), old(answers), 1) == Drift(AllDrift(old(world), old(answers), 0), a);
      return Done(a);
    }

    /** Running a command raises unless it reports success. */
    method Command() returns (r: Outcome<Answer>)
      modifies `world, `answers, `heard
      ensures Drifted(old(world), world) && Spent(old(answers), answers, 1)
      ensures PrimarySurvives(old(answers)) ==> world.primary == old(world).primary
      ensures AllCalm(old(answers)) ==> world.signer == old(world).signer
      ensures AllCalm(old(answers)) && old(answers) != [] ==>
        r.Done? && Calm(r.value) && (world.recovery ==> world.flush <= world.replay)
      ensures r.Done? <==> old(answers) != [] && old(answers)[0].ok
      ensures r.Done? ==> r.value == old(answers)[0] && heard == old(heard) + [r.value]
    {
      var a :- Step();
      if !a.ok { return Refused(503, "platform-operation-failed"); }
      return Done(a);
    }

    method Running(workload: Workload) returns (r: Outcome<bool>)
      modifies `world, `answers, `heard
      ensures Drifted(old(world), world) && Spent(old(answers), answers, 1)
      ensures PrimarySurvives(old(answers)) ==> world.primary == old(world).primary
      ensures r.Done? ==> r.value == IsUp(world, workload)
      ensures AllCalm(old(answers)) && old(answers) != [] ==> r.Done?
    {
      var a :- Command();
      return Done(IsUp(world, workload));
    }

    /** docker stop, or scaling to zero. */
    method StopCommand(workload: Workload) returns (r: Outcome<()>)
      modifies `world, `answers, `heard
      ensures Drifted(old(world), world) && Spent(old(answers), answers, 1)
      ensures PrimarySurvives(old(answers)) && workload != PrimaryDb ==> world.primary == old(world).primary
      ensures AllCalm(old(answers)) && old(answers) != [] ==> r.Done? && !IsUp(world, workload)
    {
      var a :- Step();
      if a.effect { world := Stopped(world, workload); }
      if !a.ok { return Refused(503, "platform-operation-failed"); }
      return Done(());
    }

    /** Stop a workload and see it stopped. */
    method Stop(workload: Workload) returns (r: Outcome<()>)
      modifies `world, `answers, `heard
      ensures Drifted(old(world), world) && Spent(old(answers), answers, 3 + config.polls)
      ensures PrimarySurvives(old(answers)) && workload != PrimaryDb ==> world.primary == old(world).primary
      ensures r.Done? ==> !IsUp(world, workload)
      ensures AllCalm(old(answers)) && |old(answers)| >= 3 + config.polls && config.polls > 0 ==> r.Done?
    {
      match config.platform
      case Docker =>
        var up :- Running(workload);
        if up {
          var _ :- StopCommand(workload);
        }
        up :- Running(workload);
        if up { return Refused(503, "docker-fence-failed"); }
        return Done(());
      case Kubernetes =>
        var _ :- StopCommand(workload);
        var i := 0;
        while i < config.polls
          invariant 0 <= i <= config.polls
          invariant Drifted(old(world), world) && Spent(old(answers), answers, 1 + i)
          invariant PrimarySurvives(old(answers)) && workload != PrimaryDb ==> world.primary == old(world).primary
          invariant AllCalm(old(answers)) && |old(answers)| >= 3 + config.polls ==> !IsUp(world, workload) && i == 0
        {
          var up :- Running(workload);
          if !up { return Done(()); }
          i := i + 1;
        }
        return Refused(503, "kubernetes-scale-timeout");
    }

    /** The standby came to lead only with the primary down and this operation's target applied. */
    twostate predicate LeadsPast(id: string)
      reads this
    {
      && (world.recovery != old(world).recovery ==>
            !world.primary && TargetOf(operations, id).Some? && TargetOf(operations, id).value <= world.replay)
      && (TargetOf(operations, id).Some? && TargetOf(old(operations), id).None? ==>
            old(world).flush <= TargetOf(operations, id).value)
    }

    // ---- the driver's side of prepare ----

    /** The signer must not run yet. */
    method SignerOff() returns (r: Outcome<()>)
      modifies `world, `answers, `heard
      ensures Drifted(old(world), world) && Spent(old(answers), answers, 1)
      ensures PrimarySurvives(old(answers)) ==> world.primary == old(world).primary
      ensures r.Done? ==> !world.signer
      ensures AllCalm(old(answers)) && old(answers) != [] && !old(world).signer ==> r.Done?
    {
      var a :- Command();
      if world.signer { return Refused(503, "signer-enabled-too-early"); }
      return Done(());
    }

    /** Looking the five containers up only costs answers. */
    method Lookup(count: nat) returns (r: Outcome<()>)
      modifies `world, `answers, `heard
      ensures Drifted(old(world), world) && Spent(old(answers), answers, count)
      ensures PrimarySurvives(old(answers)) ==> world.primary == old(world).primary
      ensures AllCalm(old(answers)) && |old(answers)| >= count ==> r.Done?
    {
      for i := 0 to count
        invariant Drifted(old(world), world) && Spent(old(answers), answers, i)
        invariant PrimarySurvives(old(answers)) ==> world.primary == old(world).primary
      {
        var _ :- Command();
      }
      return Done(());
    }

    method FenceActive() returns (r: Outcome<()>)
      modifies `world, `answers, `heard
      ensures Drifted(old(world), world) && Spent(old(answers), answers, 9 + config.polls)
      ensures PrimarySurvives(old(answers)) ==> world.primary == old(world).primary
      ensures r.Done? ==> !world.active && !world.signer
      ensures (AllCalm(old(answers)) && |old(answers)| >= 9 + config.polls && config.polls > 0
               && !old(world).signer) ==> r.Done?
    {
      if config.platform == Docker {
        var _ :- Lookup(5);
      }
      var _ :- Stop(ActiveApp);
      r := SignerOff();
    }

    /** A query on the primary raises when the primary is down. */
    method PrimaryQuery() returns (r: Outcome<Answer>)
      modifies `world, `answers, `heard
      ensures Drifted(old(world), world) && Spent(old(answers), answers, 1)
      ensures PrimarySurvives(old(answers)) ==> world.primary == old(world).primary
      ensures r.Done? ==> world.primary
      ensures AllCalm(old(answers)) && old(answers) != [] && world.primary ==> r.Done? && Calm(r.value)
      ensures r.Done? ==>
        old(answers) != [] && r.value == old(answers)[0] && r.value.ok && heard == old(heard) + [r.value]
    {
      var a :- Command();
      if !world.primary { return Refused(503, "platform-operation-failed"); }
      return Done(a);
    }

    /** The fenced primary's write position and when it was read. */
    method ReadTarget() returns (r: Outcome<(nat, nat)>)
      modifies `world, `answers, `heard
      ensures Drifted(old(world), world) && Spent(old(answers), answers, 3)
      ensures PrimarySurvives(old(answers)) ==> world.primary == old(world).primary
      ensures r.Done? ==> old(world).flush <= r.value.0 <= world.flush && old(world).primary
      ensures AllCalm(old(answers)) && |old(answers)| >= 3 && old(world).primary ==> r.Done?
      ensures r.Done? ==> r.value.0 == world.flush && CapturedIn(heard, Some(r.value.1))
    {
      if config.platform == Docker {
        var up :- Running(PrimaryDb);
        if !up { return Refused(503, "primary-target-unavailable"); }
      }
      var a :- PrimaryQuery();
      if !a.synchronous { return Refused(503, "standby-not-synchronous"); }
      a :- PrimaryQuery();
      assert CapturedAt(heard[|heard| - 2], heard[|heard| - 1], Some(a.now));
      return Done((world.flush, a.now));
    }

    /** Poll until the standby has applied everything up to the target. */
    method AwaitReplay(target: nat) returns (r: Outcome<nat>)
      modifies `world, `answers, `heard
      ensures Drifted(old(world), world) && Spent(old(answers), answers, 2 * config.polls)
      ensures PrimarySurvives(old(answers)) ==> world.primary == old(world).primary
      ensures r.Done? ==> target <= r.value == world.replay
      ensures (AllCalm(old(answers)) && |old(answers)| >= 2 * config.polls && config.polls > 0
               && CanReplay(old(world), target)) ==> r.Done?
    {
      var i := 0;
      while i < config.polls
        invariant 0 <= i <= config.polls
        invariant Drifted(old(world), world) && Spent(old(answers), answers, 2 * i)
        invariant PrimarySurvives(old(answers)) ==> world.primary == old(world).primary
        invariant (AllCalm(old(answers)) && |old(answers)| >= 2 * config.polls
                   && CanReplay(old(world), target)) ==> i == 0
      {
        var _ :- Command();
        var _ :- Command();
        if target <= world.replay { return Done(world.replay); }
        i := i + 1;
      }
      return Refused(503, "standby-replay-stale");
    }

    method Promote() returns (r: Outcome<()>)
      modifies `world, `answers, `heard
      ensures Later(old(world), world) && (world.signer ==> old(world).signer) && Spent(old(answers), answers, 3)
      ensures r.Done? ==> !world.recovery
      ensures AllCalm(old(answers)) && |old(answers)| >= 3 ==> r.Done?
    {
      var _ :- Command();
      if world.recovery {
        var a :- Step();
        if a.effect { world := world.(recovery := false); }
        if !a.ok { return Refused(503, "platform-operation-failed"); }
      }
      var _ :- Command();
      if world.recovery { return Refused(503, "database-promotion-failed"); }
      return Done(());
    }

    /** A command that moves one route when it takes effect. */
    method RouteCommand(service: Service, route: Route) returns (r: Outcome<Answer>)
      modifies `world, `answers, `heard
      ensures Later(old(world), world) && (world.signer ==> old(world).signer) && Spent(old(answers), answers, 1)
      ensures world.recovery == old(world).recovery
      ensures r.Done? && r.value.ok ==> RouteOf(world, service) == route
      ensures AllCalm(old(answers)) && old(answers) != [] ==> r.Done? && Calm(r.value)
    {
      var a :- Step();
      if a.effect || a.ok { world := Routed(world, service, route); }
      return Done(a);
    }

    /** docker network connect: the container is taken off the network first, and that may fail. */
    method RouteAlias(service: Service) returns (r: Outcome<()>)
      modifies `world, `answers, `heard
      ensures Later(old(world), world) && (world.signer ==> old(world).signer) && Spent(old(answers), answers, 2)
      ensures world.recovery == old(world).recovery
      ensures r.Done? ==> RouteOf(world, service) == Standby
      ensures AllCalm(old(answers)) && |old(answers)| >= 2 ==> r.Done?
    {
      var _ :- RouteCommand(service, Nowhere);
      var a :- RouteCommand(service, Standby);
      if !a.ok { return Refused(503, "platform-operation-failed"); }
      return Done(());
    }

    /** kubectl patch, then read the selector back. */
    method PatchRoute(service: Service) returns (r: Outcome<()>)
      modifies `world, `answers, `heard
      ensures Later(old(world), world) && (world.signer ==> old(world).signer) && Spent(old(answers), answers, 2)
      ensures world.recovery == old(world).recovery
      ensures r.Done? ==> RouteOf(world, service) == Standby
      ensures AllCalm(old(answers)) && |old(answers)| >= 2 ==> r.Done?
    {
      var a :- RouteCommand(service, Standby);
      if !a.ok { return Refused(503, "platform-operation-failed"); }
      var _ :- Command();
      if RouteOf(world, service) != Standby { return Refused(503, "kubernetes-route-failed"); }
      return Done(());
    }

    method RouteToStandby(service: Service) returns (r: Outcome<()>)
      modifies `world, `answers, `heard
      ensures Later(old(world), world) && (world.signer ==> old(world).signer) && Spent(old(answers), answers, 3)
      ensures world.recovery == old(world).recovery
      ensures r.Done? ==> RouteOf(world, service) == Standby
      ensures AllCalm(old(answers)) && |old(answers)| >= 3 ==> r.Done?
    {
      match config.platform
      case Docker =>
        var _ :- Step();
        r := RouteAlias(service);
      case Kubernetes =>
        r := PatchRoute(service);
    }

    /** A health endpoint must be seen in the wanted state. */
    method Probe(status: int, code: string) returns (r: Outcome<()>)
      modifies `world, `answers, `heard
      ensures Drifted(old(world), world) && Spent(old(answers), answers, 1)
      ensures PrimarySurvives(old(answers)) ==> world.primary == old(world).primary
      ensures AllCalm(old(answers)) && old(answers) != [] ==> r.Done?
      ensures Watched(old(world), old(answers), world, answers)
      ensures old(answers) == [] ==> r.Crashed?
      ensures old(answers) != [] ==> answers == old(answers)[1..] && heard == old(heard) + [old(answers)[0]]
      ensures old(answers) != [] ==> r == if Healthy(old(answers)[0]) then Done(()) else Refused(status, code)
    {
      var a :- Step();
      if !a.ok || !a.observed { return Refused(status, code); }
      return Done(());
    }

    /** After the target is durable: replay, stop the old primary, promote, route, check the indexer. */
    method PromoteStandby(target: nat) returns (r: Outcome<nat>)
      modifies `world, `answers, `heard
      ensures Later(old(world), world) && (world.signer ==> old(world).signer)
      ensures Spent(old(answers), answers, 10 + 3 * config.polls)
      ensures r.Done? ==>
        && !world.primary && !world.recovery && target <= r.value <= world.replay
        && world.database == Standby
      ensures world.recovery == old(world).recovery || (target <= world.replay && !world.primary)
      ensures (AllCalm(old(answers)) && |old(answers)| >= 10 + 3 * config.polls && config.polls > 0
               && CanReplay(old(world), target)) ==> r.Done?
      ensures r.Done? ==> HealthyBefore(heard, 0, 1)
    {
      var replay :- AwaitReplay(target);
      var _ :- Stop(PrimaryDb);
      var _ :- Promote();
      var _ :- RouteToStandby(Database);
      var _ :- Probe(503, "indexer-not-fresh");
      return Done(replay);
    }

    // ---- the state file ----

    /** The file is what the process has. */
    method Replace()
      requires Consistent()
      modifies `disk, `behind
      ensures Valid() && disk == operations && behind == 0
    {
      FileJustifies();
      disk, behind := operations, 0;
      ForwardSame(disk);
    }

    /** The file is replaced atomically; the call may raise before or after that. */
    method Save() returns (r: Outcome<()>)
      requires Consistent() && Lags(behind + 1)
      modifies `world, `answers, `heard, `disk, `behind
      ensures Consistent() && (!r.Crashed? ==> Valid()) && Forward(old(disk), disk)
      ensures Drifted(old(world), world) && Spent(old(answers), answers, 1)
      ensures PrimarySurvives(old(answers)) ==> world.primary == old(world).primary
      ensures disk == old(disk) || disk == operations
      ensures r.Done? ==> disk == operations
      ensures r.Crashed? ==> disk == old(disk) && behind == old(behind)
      ensures old(answers) == [] ==> r.Crashed?
      ensures Owes(old(behind), old(answers), behind, answers, r.Done?)
      // exactly a save that raises without having written leaves the process further behind
      ensures LostBy(old(answers)) ==> r.Refused? && disk == old(disk) && behind == old(behind) + 1
      ensures !r.Crashed? && !LostBy(old(answers)) ==> disk == operations && behind == 0
      ensures AllCalm(old(answers)) ==> world.signer == old(world).signer
      ensures AllCalm(old(answers)) && old(answers) != [] ==> r.Done?
      ensures Watched(old(world), old(answers), world, answers)
      ensures old(answers) != [] ==> answers == old(answers)[1..] && heard == old(heard) + [old(answers)[0]]
      ensures old(answers) == [] ==> heard == old(heard)
    {
      var a :- Step();
      DurableKept();
      OperationsStay(operations, old(world), world);
      if a.effect || a.ok {
        Replace();
      } else {
        behind := behind + 1;
      }
      if !a.ok { return Refused(500, "internal-error"); }
      return Done(());
    }

    /** Replacing the file by what the process has keeps the signer justified. */
    lemma FileJustifies()
      requires Durable() && Forward(disk, operations)
      ensures world.signer && !unrecorded ==> exists id :: Says(operations, id) && operations[id].target == fence
    {
      if world.signer && !unrecorded {
        var id :| Says(disk, id) && disk[id].target == fence;
        assert OperationForward(disk[id], operations[id]);
        assert Says(operations, id);
      }
    }

    // ---- prepare ----

    method VerifyWitnesses(request: Request) returns (r: Outcome<()>)
      modifies `world, `answers, `heard
      ensures Watched(old(world), old(answers), world, answers)
      ensures |old(answers)| <= |answers| + config.witnesses + 1
      ensures r.Done? <==> WitnessesAgree(config.witnesses, request, old(answers))
      ensures r.Done? ==> answers == old(answers)[config.witnesses + 1..]
      ensures Vetoed(config.witnesses, old(answers)) ==> r == Refused(409, "active-witness-veto")
      ensures (old(answers) != [] && Healthy(old(answers)[0]) && Unanimous(config.witnesses, old(answers)[1..])
               && !(2 <= config.witnesses == request.failedWitnesses)) ==> r == Refused(409, "witness-count-mismatch")
    {
      var independent := Probe(503, "witnesses-not-independent");
      if independent.IsFailure() { return independent; }
      ghost var w, given := world, answers;
      var failed := PollWitnesses();
      WatchedThen(old(world), old(answers), w, given, world, answers);
      if failed.IsFailure() { return failed.PropagateFailure(); }
      if failed.value < 2 || request.failedWitnesses != failed.value { return Refused(409, "witness-count-mismatch"); }
      return Done(());
    }

    /** How many witnesses fail to see the active coordinator: all of them, or one vetoes. */
    method PollWitnesses() returns (r: Outcome<nat>)
      modifies `world, `answers, `heard
      ensures Watched(old(world), old(answers), world, answers)
      ensures |old(answers)| <= |answers| + config.witnesses
      ensures r.Done? <==> Unanimous(config.witnesses, old(answers))
      ensures r.Done? ==> r.value == config.witnesses && answers == old(answers)[config.witnesses..]
      ensures Vetoing(config.witnesses, old(answers)) ==> r == Refused(409, "active-witness-veto")
    {
      var failed := 0;
      while failed < config.witnesses
        invariant 0 <= failed <= config.witnesses && failed <= |old(answers)|
        invariant Watched(old(world), old(answers), world, answers) && answers == old(answers)[failed..]
        invariant forall i :: 0 <= i < failed ==> !Vetoes(old(answers)[i])
      {
        ghost var w, given := world, answers;
        var polled := Step();
        WatchedThen(old(world), old(answers), w, given, world, answers);
        if polled.IsFailure() { return polled.PropagateFailure(); }
        var a := polled.value;
        if a.ok && !a.observed { return Refused(409, "active-witness-veto"); }
        failed := failed + 1;
      }
      return Done(failed);
    }

    /** Record the target of an operation, first in memory, then in the file. */
    method Checkpoint(id: string, target: nat, now: nat) returns (r: Outcome<()>)
      requires Valid() && id in operations && operations[id].target == None && target <= world.flush
      modifies `world, `answers, `heard, `operations, `disk, `behind
      ensures Consistent() && (!r.Crashed? ==> Valid())
      ensures Owes(old(behind), old(answers), behind, answers, r.Done?)
      ensures operations == old(operations)[id := old(operations)[id].(target := Some(target), capturedAt := Some(now))]
      ensures Forward(old(disk), disk) && (disk == old(disk) || disk == operations)
      ensures r.Done? ==> disk == operations
      ensures LostBy(old(answers)) ==> r.Refused? && disk == old(disk)
      ensures Drifted(old(world), world) && Spent(old(answers), answers, 1)
      ensures PrimarySurvives(old(answers)) ==> world.primary == old(world).primary
      ensures AllCalm(old(answers)) && old(answers) != [] ==> r.Done?
      ensures CapturedIn(old(heard), Some(now)) ==> CapturedIn(heard, Some(now))
    {
      var o := operations[id];
      assert OperationOk(id, o, world);
      operations := operations[id := o.(target := Some(target), capturedAt := Some(now))];
      r := Save();
      if CapturedIn(old(heard), Some(now)) && old(answers) != [] {
        CapturedMore(old(heard), [old(answers)[0]], Some(now));
      }
    }

    /** The target recorded earlier, or the one read and recorded now. */
    method EnsureTarget(id: string) returns (r: Outcome<nat>)
      requires Valid() && id in operations && operations[id].phase == PREPARING
      modifies `world, `answers, `heard, `operations, `disk, `behind
      ensures Consistent() && (!r.Crashed? ==> Valid())
      ensures Owes(old(behind), old(answers), behind, answers, r.Done?)
      ensures Drifted(old(world), world) && Spent(old(answers), answers, 4)
      ensures Forward(old(operations), operations) && Forward(old(disk), disk)
      ensures OnlyTarget(old(operations), operations, id)
      ensures old(operations)[id].target.Some? ==> disk == old(disk)
      ensures PrimarySurvives(old(answers)) ==> world.primary == old(world).primary
      ensures r.Done? ==> operations[id].target == Some(r.value)
      ensures r.Done? && old(operations)[id].target.None? ==> disk == operations
      ensures old(operations)[id].target.None? && operations[id].target.Some? ==>
        old(world).flush <= operations[id].target.value
      ensures disk == old(disk) || disk == operations
      ensures Blocked(old(operations), id, old(world)) ==> !r.Done? && operations == old(operations)
      ensures (AllCalm(old(answers)) && |old(answers)| >= 4 && Resumable(old(operations), id, old(world)))
        ==> r.Done?
      ensures old(operations)[id].target.None? && operations[id].target.Some? ==>
        CapturedIn(heard, operations[id].capturedAt)
    {
      var target := operations[id].target;
      if target.Some? {
        ForwardSame(operations);
        ForwardSame(disk);
        r := Done(target.value);
      } else {
        r := CaptureTarget(id);
      }
    }

    /** Read the target and record it. */
    method CaptureTarget(id: string) returns (r: Outcome<nat>)
      requires Valid() && id in operations && operations[id].phase == PREPARING
      requires operations[id].target == None
      modifies `world, `answers, `heard, `operations, `disk, `behind
      ensures Consistent() && (!r.Crashed? ==> Valid())
      ensures Owes(old(behind), old(answers), behind, answers, r.Done?)
      ensures Drifted(old(world), world) && Spent(old(answers), answers, 4)
      ensures Forward(old(operations), operations) && Forward(old(disk), disk)
      ensures OnlyTarget(old(operations), operations, id)
      ensures PrimarySurvives(old(answers)) ==> world.primary == old(world).primary
      ensures r.Done? ==> operations[id].target == Some(r.value) && disk == operations
      ensures operations[id].target.Some? ==> old(world).flush <= operations[id].target.value
      ensures disk == old(disk) || disk == operations
      ensures Blocked(old(operations), id, old(world)) ==> !r.Done? && operations == old(operations)
      ensures (AllCalm(old(answers)) && |old(answers)| >= 4 && Resumable(old(operations), id, old(world)))
        ==> r.Done?
      ensures operations[id].target.Some? ==> CapturedIn(heard, operations[id].capturedAt)
    {
      var read := ReadTarget();
      ValidKept();
      ForwardSame(operations);
      ForwardSame(disk);
      if read.IsFailure() { return read.PropagateFailure(); }
      var (lsn, now) := read.value;
      var saved := Checkpoint(id, lsn, now);
      r := if saved.Done? then Done(lsn) else saved.PropagateFailure();
    }

    /** After fencing: capture the target once, then promote. */
    method CaptureAndPromote(id: string) returns (r: Outcome<PrepareResponse>)
      requires Valid() && id in operations && operations[id].phase == PREPARING
      requires !world.active && !world.signer
      modifies `world, `answers, `heard, `operations, `disk, `behind
      ensures Consistent() && (!r.Crashed? ==> Valid())
      ensures Owes(old(behind), old(answers), behind, answers, r.Done?)
      ensures Later(old(world), world) && !world.signer && Spent(old(answers), answers, 14 + 3 * config.polls)
      ensures Forward(old(operations), operations) && Forward(old(disk), disk)
      ensures OnlyTarget(old(operations), operations, id)
      ensures old(operations)[id].target.Some? ==> disk == old(disk)
      ensures r.Done? ==>
        && operations[id].target == Some(r.value.target) && Fenced(world, r.value.target)
        && r.value.operation == id && r.value.target <= r.value.replay && !r.value.signerActive
        && world.database == Standby
      ensures (PrimarySurvives(old(answers)) && world.primary != old(world).primary) || r.Done? ==>
        old(Exposed(id)) || (id in disk && disk[id].target == operations[id].target && operations[id].target.Some?)
      ensures LeadsPast(id)
      ensures Blocked(old(operations), id, old(world)) ==> !r.Done? && Blocked(operations, id, world)
      ensures PrimarySurvives(old(answers)) && Resumable(old(operations), id, old(world)) ==>
        Resumable(operations, id, world) && (!old(Exposed(id)) ==> Resumable(disk, id, world))
      ensures (AllCalm(old(answers)) && |old(answers)| >= 14 + 3 * config.polls && config.polls > 0
               && Resumable(old(operations), id, old(world)))
        ==> r.Done?
      ensures r.Done? ==> HealthyBefore(heard, 0, 1)
    {
      var target := EnsureTarget(id);
      if target.IsFailure() {
        r := target.PropagateFailure();
      } else {
        label captured:
        assert OperationOk(id, operations[id], world);
        var replay := PromoteStandby(target.value);
        ValidKept@captured();
        r := if replay.Done? then Done(PrepareResponse(id, target.value, replay.value, false))
             else replay.PropagateFailure();
      }
    }

    /** The driver's part of prepare. */
    method DriverPrepare(id: string) returns (r: Outcome<PrepareResponse>)
      requires Valid() && id in operations && operations[id].phase == PREPARING
      modifies `world, `answers, `heard, `operations, `disk, `behind
      ensures Consistent() && (!r.Crashed? ==> Valid())
      ensures Owes(old(behind), old(answers), behind, answers, r.Done?)
      ensures Later(old(world), world) && (world.signer ==> old(world).signer)
      ensures Spent(old(answers), answers, 23 + 4 * config.polls)
      ensures Forward(old(operations), operations) && Forward(old(disk), disk)
      ensures OnlyTarget(old(operations), operations, id)
      ensures old(operations)[id].target.Some? ==> disk == old(disk)
      ensures r.Done? ==>
        && operations[id].target == Some(r.value.target) && Fenced(world, r.value.target)
        && r.value.operation == id && r.value.target <= r.value.replay && !r.value.signerActive
        && !world.signer && world.database == Standby
      // the primary is stopped only when the target is in the file, unless memory alone had it before the call
      ensures (PrimarySurvives(old(answers)) && world.primary != old(world).primary) || r.Done? ==>
        old(Exposed(id)) || (id in disk && disk[id].target == operations[id].target && operations[id].target.Some?)
      ensures LeadsPast(id)
      ensures Blocked(old(operations), id, old(world)) ==> !r.Done? && Blocked(operations, id, world)
      ensures PrimarySurvives(old(answers)) && Resumable(old(operations), id, old(world)) ==>
        Resumable(operations, id, world) && (!old(Exposed(id)) ==> Resumable(disk, id, world))
      ensures (AllCalm(old(answers)) && |old(answers)| >= 23 + 4 * config.polls && config.polls > 0
               && !old(world).signer && Resumable(old(operations), id, old(world)))
        ==> r.Done?
      ensures r.Done? ==> HealthyBefore(heard, 0, 1)
    {
      var fenced := FenceActive();
      ValidKept();
      if fenced.IsFailure() {
        r := fenced.PropagateFailure();
      } else {
        r := CaptureAndPromote(id);
      }
    }

    /** Keep the driver's answer and call the operation prepared. */
    method RecordPrepared(id: string, response: PrepareResponse) returns (r: Outcome<PrepareResponse>)
      requires Valid() && id in operations && operations[id].phase == PREPARING
      requires operations[id].target == Some(response.target) && Fenced(world, response.target)
      requires response.operation == id && response.target <= response.replay && !response.signerActive
      modifies `world, `answers, `heard, `operations, `disk, `behind
      ensures Consistent() && (!r.Crashed? ==> Valid())
      ensures Owes(old(behind), old(answers), behind, answers, r.Done?)
      ensures Drifted(old(world), world) && Spent(old(answers), answers, 1)
      ensures operations == old(operations)[id := old(operations)[id].(prepared := Some(response), phase := PREPARED)]
      ensures Forward(old(disk), disk)
      ensures disk == old(disk) || disk == operations
      ensures PrimarySurvives(old(answers)) ==> world.primary == old(world).primary
      ensures r.Done? ==> r.value == response
      ensures AllCalm(old(answers)) && old(answers) != [] ==> r.Done?
      ensures old(answers) == [] ==> disk == old(disk)
      ensures LostBy(old(answers)) ==> r.Refused? && disk == old(disk)
      ensures r.Done? && HealthyBefore(old(heard), 0, 1) ==> HealthyBefore(heard, 1, 1)
    {
      assert OperationOk(id, operations[id], world);
      operations := operations[id := operations[id].(prepared := Some(response), phase := PREPARED)];
      var saved := Save();
      r := if saved.Done? then Done(response) else saved.PropagateFailure();
    }

    /** The gates the provider checks itself before it touches the platform. */
    method Gates(request: Request) returns (r: Outcome<()>)
      modifies `world, `answers, `heard
      ensures Drifted(old(world), world) && Spent(old(answers), answers, config.witnesses + 2)
      ensures PrimarySurvives(old(answers)) ==> world.primary == old(world).primary
      ensures Watched(old(world), old(answers), world, answers)
      ensures r.Done? <==> Gated(config.witnesses, request, old(answers))
      ensures Vetoed(config.witnesses, old(answers)) ==> r == Refused(409, "active-witness-veto")
    {
      r := VerifyWitnesses(request);
      if r.Done? {
        ghost var w, given := world, answers;
        r := Probe(503, "standby-not-safe");
        WatchedThen(old(world), old(answers), w, given, world, answers);
      }
      WatchedMeans(old(world), old(answers), world, answers, config.witnesses + 2);
    }

    lemma CalmIsGated(request: Request, given: seq<Answer>)
      requires AllCalm(given) && |given| >= config.witnesses + 2 && 2 <= config.witnesses == request.failedWitnesses
      ensures Gated(config.witnesses, request, given)
    {
    }

    /** The driver's work, then the record of its answer. */
    method DriveAndRecord(id: string) returns (r: Outcome<PrepareResponse>)
      requires Valid() && id in operations && operations[id].phase == PREPARING
      modifies `world, `answers, `heard, `operations, `disk, `behind
      ensures Consistent() && (!r.Crashed? ==> Valid())
      ensures Owes(old(behind), old(answers), behind, answers, r.Done?)
      ensures Later(old(world), world) && (world.signer ==> old(world).signer)
      ensures Spent(old(answers), answers, 24 + 4 * config.polls)
      ensures Forward(old(operations), operations) && Forward(old(disk), disk)
      ensures OnlyAt(old(operations), operations, id) && id in operations
      ensures operations[id].phase != PREPARING ==> !world.signer && world.database == Standby
      ensures r.Done? ==>
        && operations[id].prepared == Some(r.value) && Fenced(world, r.value.target)
        && !world.signer && world.database == Standby
      ensures LeadsPast(id)
      ensures Blocked(old(operations), id, old(world)) ==> !r.Done? && Blocked(operations, id, world)
      ensures PrimarySurvives(old(answers)) && Resumable(old(operations), id, old(world)) ==>
        Resumable(operations, id, world) && (!old(Exposed(id)) ==> Resumable(disk, id, world))
      ensures (AllCalm(old(answers)) && |old(answers)| >= 24 + 4 * config.polls && config.polls > 0
               && !old(world).signer && Resumable(old(operations), id, old(world)))
        ==> r.Done?
      ensures r.Done? ==> HealthyBefore(heard, 1, 1)
    {
      r := DriverPrepare(id);
      if r.Done? {
        ghost var file, memory := disk, operations;
        r := RecordPrepared(id, r.value);
        ForwardTransitive(old(disk), file, disk);
        OneForward(memory, operations, id);
        ForwardTransitive(old(operations), memory, operations);
      }
    }

    /** A recorded operation that is not prepared yet goes through gates, driver and record. */
    method RunPrepare(id: string, request: Request) returns (r: Outcome<PrepareResponse>)
      requires Valid() && id in operations && operations[id].phase == PREPARING
      modifies `world, `answers, `heard, `operations, `disk, `behind
      ensures Consistent() && (!r.Crashed? ==> Valid())
      ensures Owes(old(behind), old(answers), behind, answers, r.Done?)
      ensures Later(old(world), world) && (world.signer ==> old(world).signer)
      ensures Spent(old(answers), answers, 26 + config.witnesses + 4 * config.polls)
      ensures Forward(old(operations), operations) && Forward(old(disk), disk)
      ensures OnlyAt(old(operations), operations, id) && id in operations
      ensures operations[id].phase != PREPARING ==> !world.signer && world.database == Standby
      ensures r.Done? ==>
        && operations[id].prepared == Some(r.value) && Fenced(world, r.value.target)
        && !world.signer && world.database == Standby
      ensures LeadsPast(id)
      ensures Blocked(old(operations), id, old(world)) ==> !r.Done? && Blocked(operations, id, world)
      ensures PrimarySurvives(old(answers)) && Resumable(old(operations), id, old(world)) ==>
        Resumable(operations, id, world) && (!old(Exposed(id)) ==> Resumable(disk, id, world))
      ensures (AllCalm(old(answers)) && |old(answers)| >= 26 + config.witnesses + 4 * config.polls && config.polls > 0
               && 2 <= config.witnesses == request.failedWitnesses
               && !old(world).signer && Resumable(old(operations), id, old(world)))
        ==> r.Done?
      ensures r.Done? ==> HealthyBefore(heard, 1, 1)
      ensures !Gated(config.witnesses, request, old(answers)) ==>
        !r.Done? && operations == old(operations) && disk == old(disk)
        && Watched(old(world), old(answers), world, answers)
      ensures Vetoed(config.witnesses, old(answers)) ==> r == Refused(409, "active-witness-veto")
    {
      var gates := Gates(request);
      ValidKept();
      if gates.IsFailure() {
        r := gates.PropagateFailure();
      } else {
        r := DriveAndRecord(id);
      }
    }

    /** Record a new operation. */
    method OpenOperation(id: string, key: string, request: Request) returns (r: Outcome<()>)
      requires Valid() && id !in operations && request.candidate == id
      modifies `world, `answers, `heard, `operations, `disk, `behind
      ensures Consistent() && (!r.Crashed? ==> Valid())
      ensures Owes(old(behind), old(answers), behind, answers, r.Done?)
      ensures Drifted(old(world), world) && Spent(old(answers), answers, 1)
      ensures PrimarySurvives(old(answers)) ==> world.primary == old(world).primary
      ensures operations == old(operations)[id := Operation(key, request, PREPARING, None, None, None, None, None)]
      ensures Forward(old(disk), disk)
      ensures (disk == old(disk) || disk == operations) && (r.Done? ==> disk == operations)
      ensures AllCalm(old(answers)) && old(answers) != [] ==> r.Done?
      ensures Watched(old(world), old(answers), world, answers)
      ensures old(answers) == [] ==> !r.Done?
      ensures old(answers) != [] ==> answers == old(answers)[1..]
    {
      operations := operations[id := Operation(key, request, PREPARING, None, None, None, None, None)];
      assert id !in disk;
      r := Save();
    }

    /** The operation of this request was started with another key or body. */
    predicate Conflicts(key: string, request: Request)
      reads this
    {
      request.candidate in operations &&
      (operations[request.candidate].key != key || operations[request.candidate].request != request)
    }

    /** A call that is neither refused nor answered from the record. */
    ghost predicate Reaches(key: string, request: Request, ops: Operations)
    {
      && Refusal(config, key, request).None?
      && (request.candidate in ops ==>
            var o := ops[request.candidate]; o.key == key && o.request == request && o.prepared.None?)
    }

    /** On record without an answer, and with no other target. */
    static ghost predicate Waiting(ops: Operations, id: string, target: Option<nat>)
    {
      id in ops && ops[id].phase == PREPARING && ops[id].prepared.None? && ops[id].target == target
    }

    method Prepare(key: string, request: Request) returns (r: Outcome<PrepareResponse>)
      requires Valid()
      modifies `world, `answers, `heard, `operations, `disk, `behind
      ensures Consistent() && (!r.Crashed? ==> Valid())
      ensures Owes(old(behind), old(answers), behind, answers, r.Done?)
      ensures Later(old(world), world) && (world.signer ==> old(world).signer)
      // nothing recorded is replaced, and no other operation is touched
      ensures Forward(old(operations), operations) && Forward(old(disk), disk)
      ensures OnlyAt(old(operations), operations, request.candidate)
      ensures request.candidate in operations && request.candidate !in old(operations) ==>
        operations[request.candidate].key == key && operations[request.candidate].request == request
      // malformed and conflicting calls, and calls that are finished, do not reach the driver
      ensures Refusal(config, key, request).Some? || old(Conflicts(key, request)) ==>
        r.Refused? && operations == old(operations) && disk == old(disk) && world == old(world)
        && answers == old(answers)
      ensures Refusal(config, key, request).Some? ==>
        r == Refused(Refusal(config, key, request).value.0, Refusal(config, key, request).value.1)
      ensures (Refusal(config, key, request).None? && request.candidate in old(operations)
               && !old(Conflicts(key, request)) && old(operations)[request.candidate].prepared.Some?) ==>
        r == Done(old(operations)[request.candidate].prepared.value) && operations == old(operations)
        && disk == old(disk) && world == old(world) && answers == old(answers)
      // an operation becomes prepared only while the signer is off
      ensures (request.candidate in operations && operations[request.candidate].phase != PREPARING
               && !(request.candidate in old(operations) && old(operations)[request.candidate].phase != PREPARING))
        ==> !world.signer && world.database == Standby
      // a finished call leaves the same fenced world wherever it started from
      ensures r.Done? ==>
        && request.candidate in operations && operations[request.candidate].prepared == Some(r.value)
        && Fenced(world, r.value.target)
        && (world.database == Standby || operations == old(operations))
      // one that does the work finishes only with a fresh indexer, seen just before the answer goes on record
      ensures r.Done? && operations != old(operations) ==> HealthyBefore(heard, 1, 1)
      // unless the witnesses agree that the active side is gone and the standby is safe, nothing is touched
      ensures (Reaches(key, request, old(operations))
               && !Gated(config.witnesses, request, AfterOpening(request.candidate in old(operations), old(answers))))
        ==> !r.Done? && Watched(old(world), old(answers), world, answers)
            && Waiting(operations, request.candidate, TargetOf(old(operations), request.candidate))
      // an interrupted call can be repeated, and repeated in a calm environment it finishes
      ensures PrimarySurvives(old(answers)) && Resumable(old(operations), request.candidate, old(world)) ==>
        && Resumable(operations, request.candidate, world)
        && (!old(Exposed(request.candidate)) ==> Resumable(disk, request.candidate, world))
      // a call for which no target can be read any more never finishes
      ensures Blocked(old(operations), request.candidate, old(world)) ==>
        !r.Done? && Blocked(operations, request.candidate, world)
      // the standby leads only when the primary is down
      ensures LeadsPast(request.candidate)
      // another operation can still go on, if its target is not past the one that this call promotes at,
      // or, if it has none yet, exactly as long as this call leaves the primary up
      ensures OthersGoOn(request.candidate)
      ensures (AllCalm(old(answers)) && |old(answers)| >= 27 + config.witnesses + 4 * config.polls && config.polls > 0
               && 2 <= config.witnesses == request.failedWitnesses
               && Refusal(config, key, request).None? && !old(Conflicts(key, request))
               && !old(world).signer && Resumable(old(operations), request.candidate, old(world)))
        ==> r.Done?
    {
      var refusal := Refusal(config, key, request);
      ForwardSame(operations);
      ForwardSame(disk);
      FileResumable(request.candidate);
      if refusal.Some? { return Refused(refusal.value.0, refusal.value.1); }
      var id := request.candidate;
      if Conflicts(key, request) { return Refused(409, "idempotency-conflict"); }
      if id in operations {
        assert OperationOk(id, operations[id], world);
        if operations[id].prepared.Some? { return Done(operations[id].prepared.value); }
      }
      r := Proceed(id, key, request);
    }

    /** The gates, the driver and the record, for an operation that is on record or opened now. */
    method Proceed(id: string, key: string, request: Request) returns (r: Outcome<PrepareResponse>)
      requires Valid() && request.candidate == id && Reaches(key, request, operations)
      modifies `world, `answers, `heard, `operations, `disk, `behind
      ensures Consistent() && (!r.Crashed? ==> Valid())
      ensures Owes(old(behind), old(answers), behind, answers, r.Done?)
      ensures Later(old(world), world) && (world.signer ==> old(world).signer)
      ensures Forward(old(operations), operations) && Forward(old(disk), disk)
      ensures OnlyAt(old(operations), operations, id) && id in operations
      ensures operations[id].key == key && operations[id].request == request
      ensures operations[id].phase != PREPARING ==> !world.signer && world.database == Standby
      ensures r.Done? ==>
        && operations[id].prepared == Some(r.value) && Fenced(world, r.value.target)
        && !world.signer && world.database == Standby && HealthyBefore(heard, 1, 1)
      ensures !Gated(config.witnesses, request, AfterOpening(id in old(operations), old(answers))) ==>
        !r.Done? && Watched(old(world), old(answers), world, answers)
        && Waiting(operations, id, TargetOf(old(operations), id))
      ensures LeadsPast(id) && OthersGoOn(id)
      ensures Blocked(old(operations), id, old(world)) ==> !r.Done? && Blocked(operations, id, world)
      ensures PrimarySurvives(old(answers)) && Resumable(old(operations), id, old(world)) ==>
        Resumable(operations, id, world) && (!old(Exposed(id)) ==> Resumable(disk, id, world))
      ensures (AllCalm(old(answers)) && |old(answers)| >= 27 + config.witnesses + 4 * config.polls && config.polls > 0
               && 2 <= config.witnesses == request.failedWitnesses
               && !old(world).signer && Resumable(old(operations), id, old(world)))
        ==> r.Done?
    {
      if id in operations {
        assert OperationOk(id, operations[id], world);
        r := RunPrepare(id, request);
      } else {
        r := FirstPrepare(id, key, request);
      }
      OthersKept(id);
    }

    lemma FileResumable(id: string)
      requires Consistent()
      ensures Resumable(operations, id, world) && !Exposed(id) ==> Resumable(disk, id, world)
    {
      if id in disk { assert OperationForward(disk[id], operations[id]); }
    }

    /** What a prepare of one operation leaves of the others. */
    twostate predicate OthersGoOn(id: string)
      reads this
    {
      forall other :: other != id && Resumable(old(operations), other, old(world)) ==>
        && (NotPast(old(operations), other, id) ==> Resumable(operations, other, world))
        && (TargetOf(old(operations), other).None? ==> (Resumable(operations, other, world) <==> world.primary))
    }

    twostate lemma OthersKept(id: string)
      requires OnlyAt(old(operations), operations, id) && LeadsPast(id) && Later(old(world), world)
      requires OperationsOk(old(operations), old(world)) && Forward(old(operations), operations)
      ensures OthersGoOn(id)
    {
      forall other | other != id && NotPast(old(operations), other, id) && Resumable(old(operations), other, old(world))
        ensures Resumable(operations, other, world)
      {
        assert OperationOk(other, old(operations)[other], old(world));
        if id in old(operations) { assert OperationForward(old(operations)[id], operations[id]); }
      }
    }

    method FirstPrepare(id: string, key: string, request: Request) returns (r: Outcome<PrepareResponse>)
      requires Valid() && id !in operations && request.candidate == id
      modifies `world, `answers, `heard, `operations, `disk, `behind
      ensures Consistent() && (!r.Crashed? ==> Valid())
      ensures Owes(old(behind), old(answers), behind, answers, r.Done?)
      ensures Later(old(world), world) && (world.signer ==> old(world).signer)
      ensures Forward(old(operations), operations) && Forward(old(disk), disk)
      ensures OnlyAt(old(operations), operations, id) && id in operations
      ensures operations[id].key == key && operations[id].request == request
      ensures operations[id].phase != PREPARING ==> !world.signer && world.database == Standby
      ensures r.Done? ==>
        && operations[id].prepared == Some(r.value) && Fenced(world, r.value.target)
        && !world.signer && world.database == Standby
      ensures LeadsPast(id)
      ensures Blocked(old(operations), id, old(world)) ==> !r.Done? && Blocked(operations, id, world)
      ensures PrimarySurvives(old(answers)) && Resumable(old(operations), id, old(world)) ==>
        Resumable(operations, id, world) && (!old(Exposed(id)) ==> Resumable(disk, id, world))
      ensures (AllCalm(old(answers)) && |old(answers)| >= 27 + config.witnesses + 4 * config.polls && config.polls > 0
               && 2 <= config.witnesses == request.failedWitnesses
               && !old(world).signer && Resumable(old(operations), id, old(world)))
        ==> r.Done?
      ensures r.Done? ==> HealthyBefore(heard, 1, 1)
      ensures !Gated(config.witnesses, request, AfterOpening(false, old(answers))) ==>
        !r.Done? && operations[id] == Operation(key, request, PREPARING, None, None, None, None, None)
        && Watched(old(world), old(answers), world, answers)
    {
      var recorded := OpenOperation(id, key, request);
      if recorded.IsFailure() {
        r := recorded.PropagateFailure();
      } else {
        ghost var file, memory, w, given := disk, operations, world, answers;
        r := RunPrepare(id, request);
        if !Gated(config.witnesses, request, given) {
          WatchedThen(old(world), old(answers), w, given, world, answers);
        }
        ForwardTransitive(old(disk), file, disk);
        ForwardTransitive(old(operations), memory, operations);
      }
    }

    // ---- commit ----

    ghost function Signing(): Starts
      reads this
    {
      Starts(starts, unrecorded, world.signer)
    }

    /** The signer runs, behind the fence of a prepared operation. */
    method SignerStarts(id: string)
      requires Valid() && id in operations && operations[id].phase != PREPARING
      modifies `world, `fence, `unrecorded, `starts
      ensures Valid() && world == old(world).(signer := true)
      ensures starts == old(starts) + 1 && unrecorded == !Says(disk, id)
    {
      assert OperationOk(id, operations[id], world);
      world := world.(signer := true);
      starts, fence, unrecorded := starts + 1, operations[id].target, !Says(disk, id);
      OperationsStay(operations, old(world), world);
      OperationsStay(disk, old(world), world);
      FenceRecorded(id);
    }

    lemma FenceRecorded(id: string)
      requires Forward(disk, operations) && OperationsOk(disk, world) && id in operations
        && fence == operations[id].target
      ensures Says(disk, id) ==> disk[id].target == fence
    {
      if Says(disk, id) {
        assert OperationForward(disk[id], operations[id]) && OperationOk(id, disk[id], world);
      }
    }

    /** Starting the signer is justified by a prepared operation. */
    method StartCommand(id: string) returns (r: Outcome<()>)
      requires Valid() && id in operations && operations[id].phase != PREPARING
      modifies `world, `answers, `heard, `fence, `unrecorded, `starts
      ensures Valid() && Later(old(world), world) && Spent(old(answers), answers, 1)
      ensures StartsAre(old(Signing()), Signing(), !Says(disk, id))
      ensures world.application == old(world).application
      ensures AllCalm(old(answers)) && old(answers) != [] ==> r.Done? && world.signer
    {
      var a := Step();
      ValidKept();
      if a.IsFailure() { return a.PropagateFailure(); }
      if a.value.effect { SignerStarts(id); }
      if !a.value.ok { return Refused(503, "platform-operation-failed"); }
      return Done(());
    }

    method SignerRunning() returns (r: Outcome<bool>)
      requires Valid()
      modifies `world, `answers, `heard
      ensures Valid() && Drifted(old(world), world) && Spent(old(answers), answers, 1)
      ensures r.Done? ==> r.value == world.signer
      ensures AllCalm(old(answers)) && old(answers) != [] ==> r.Done? && world.signer == old(world).signer
    {
      var a := Command();
      ValidKept();
      r := if a.Done? then Done(world.signer) else a.PropagateFailure();
    }

    method StartContainer(id: string) returns (r: Outcome<()>)
      requires Valid() && id in operations && operations[id].phase != PREPARING
      modifies `world, `answers, `heard, `fence, `unrecorded, `starts
      ensures Valid() && Later(old(world), world) && Spent(old(answers), answers, 3)
      ensures StartsAre(old(Signing()), Signing(), !Says(disk, id))
      ensures world.application == old(world).application
      ensures r.Done? ==> world.signer
      ensures AllCalm(old(answers)) && |old(answers)| >= 3 ==> r.Done?
    {
      r := StartIfDown(id);
      ghost var started := Signing();
      if r.Done? {
        var up := SignerRunning();
        StartsThen(old(Signing()), started, Signing(), !Says(disk, id));
        r := if up.IsFailure() then up.PropagateFailure()
             else if up.value then Done(()) else Refused(503, "signer-activation-failed");
      }
    }

    /** docker start, unless the container runs. */
    method StartIfDown(id: string) returns (r: Outcome<()>)
      requires Valid() && id in operations && operations[id].phase != PREPARING
      modifies `world, `answers, `heard, `fence, `unrecorded, `starts
      ensures Valid() && Later(old(world), world) && Spent(old(answers), answers, 2)
      ensures StartsAre(old(Signing()), Signing(), !Says(disk, id))
      ensures world.application == old(world).application
      ensures AllCalm(old(answers)) && |old(answers)| >= 3 ==> r.Done? && world.signer
    {
      var up := SignerRunning();
      if up.IsFailure() { return up.PropagateFailure(); }
      ghost var seen := Signing();
      r := Done(());
      if !up.value {
        r := StartCommand(id);
        StartsAfter(old(Signing()), seen, Signing(), !Says(disk, id));
      }
    }

    method ScaleSigner(id: string) returns (r: Outcome<()>)
      requires Valid() && id in operations && operations[id].phase != PREPARING
      modifies `world, `answers, `heard, `fence, `unrecorded, `starts
      ensures Valid() && Later(old(world), world) && Spent(old(answers), answers, 1 + config.polls)
      ensures StartsAre(old(Signing()), Signing(), !Says(disk, id))
      ensures world.application == old(world).application
      ensures r.Done? ==> world.signer
      ensures AllCalm(old(answers)) && |old(answers)| >= 1 + config.polls && config.polls > 0 ==> r.Done?
    {
      var _ :- StartCommand(id);
      r := AwaitSigner();
    }

    method AwaitSigner() returns (r: Outcome<()>)
      requires Valid()
      modifies `world, `answers, `heard
      ensures Valid() && Drifted(old(world), world) && Spent(old(answers), answers, config.polls)
      ensures r.Done? ==> world.signer
      ensures AllCalm(old(answers)) && |old(answers)| >= config.polls > 0 && old(world).signer ==> r.Done?
    {
      var i := 0;
      while i < config.polls
        invariant 0 <= i <= config.polls
        invariant Valid() && Drifted(old(world), world) && Spent(old(answers), answers, i)
        invariant AllCalm(old(answers)) && |old(answers)| >= config.polls && old(world).signer
          ==> world.signer && i == 0
      {
        var up :- SignerRunning();
        if up { return Done(()); }
        i := i + 1;
      }
      return Refused(503, "kubernetes-scale-timeout");
    }

    method ActivateSigner(id: string) returns (r: Outcome<()>)
      requires Valid() && id in operations && operations[id].phase != PREPARING
      modifies `world, `answers, `heard, `fence, `unrecorded, `starts
      ensures Valid() && Later(old(world), world) && Spent(old(answers), answers, 3 + config.polls)
      ensures StartsAre(old(Signing()), Signing(), !Says(disk, id))
      ensures world.application == old(world).application
      ensures r.Done? ==> world.signer
      ensures AllCalm(old(answers)) && |old(answers)| >= 3 + config.polls && config.polls > 0 ==> r.Done?
    {
      match config.platform
      case Docker => r := StartContainer(id);
      case Kubernetes => r := ScaleSigner(id);
    }

    /** Every signer role healthy in one pass, within the deadline. */
    method VerifySigner() returns (r: Outcome<()>)
      modifies `world, `answers, `heard
      ensures Drifted(old(world), world) && Spent(old(answers), answers, config.polls * config.signerRoles)
      ensures AllCalm(old(answers)) ==> world.signer == old(world).signer
      ensures AllCalm(old(answers)) && |old(answers)| >= config.polls * config.signerRoles && config.polls > 0
        ==> r.Done?
      ensures r.Done? ==> HealthyBefore(heard, 0, config.signerRoles)
    {
      var i := 0;
      while i < config.polls
        invariant 0 <= i <= config.polls
        invariant Drifted(old(world), world) && Spent(old(answers), answers, i * config.signerRoles)
        invariant AllCalm(old(answers)) ==> world.signer == old(world).signer
        invariant AllCalm(old(answers)) && |old(answers)| >= config.polls * config.signerRoles ==> i == 0
      {
        var healthy, role := true, 0;
        Products(i, config.polls, config.signerRoles);
        while role < config.signerRoles
          invariant 0 <= role <= config.signerRoles
          invariant Drifted(old(world), world) && Spent(old(answers), answers, i * config.signerRoles + role)
          invariant AllCalm(old(answers)) ==> world.signer == old(world).signer
          invariant AllCalm(old(answers)) ==> healthy
          invariant healthy ==> HealthyBefore(heard, 0, role)
        {
          var a :- Step();
          if !a.ok || !a.observed { healthy := false; }
          role := role + 1;
        }
        if healthy { return Done(()); }
        i := i + 1;
      }
      return Refused(503, "signer-activation-failed");
    }

    static lemma Products(i: nat, n: nat, k: nat)
      requires i < n
      ensures i * k + k == (i + 1) * k <= n * k
      decreases n - i
    {
      if i + 1 < n { Products(i + 1, n, k); }
    }

    /** The driver's part of commit: fence again, route, start the signer, verify it. */
    method DriverCommit(id: string) returns (r: Outcome<()>)
      requires Valid() && id in operations && operations[id].phase != PREPARING
      modifies `world, `answers, `heard, `fence, `unrecorded, `starts
      ensures Valid() && Later(old(world), world)
      ensures StartsAre(old(Signing()), Signing(), !Says(disk, id))
      ensures Spent(old(answers), answers, 12 + 2 * config.polls + config.polls * config.signerRoles)
      ensures r.Done? ==> !world.active && world.application == Standby
      ensures (AllCalm(old(answers)) && config.polls > 0
               && |old(answers)| >= 12 + 2 * config.polls + config.polls * config.signerRoles)
        ==> r.Done? && world.signer
      ensures r.Done? ==> HealthyBefore(heard, 0, config.signerRoles)
    {
      r := FenceAgain();
      ghost var fenced := Signing();
      if r.Done? {
        r := StartAndConfirm(id);
        StartsAfter(old(Signing()), fenced, Signing(), !Says(disk, id));
      }
    }

    method StartAndConfirm(id: string) returns (r: Outcome<()>)
      requires Valid() && id in operations && operations[id].phase != PREPARING
      modifies `world, `answers, `heard, `fence, `unrecorded, `starts
      ensures Valid() && Later(old(world), world)
      ensures StartsAre(old(Signing()), Signing(), !Says(disk, id))
      ensures Spent(old(answers), answers, 3 + config.polls + config.polls * config.signerRoles)
      ensures world.application == old(world).application
      ensures (AllCalm(old(answers)) && config.polls > 0
               && |old(answers)| >= 3 + config.polls + config.polls * config.signerRoles)
        ==> r.Done? && world.signer
      ensures r.Done? ==> HealthyBefore(heard, 0, config.signerRoles)
    {
      r := ActivateSigner(id);
      ghost var started := Signing();
      if r.Done? {
        r := ConfirmSigner();
        StartsThen(old(Signing()), started, Signing(), !Says(disk, id));
      }
    }

    method FenceAgain() returns (r: Outcome<()>)
      requires Valid()
      modifies `world, `answers, `heard
      ensures Valid() && Later(old(world), world) && (world.signer ==> old(world).signer)
      ensures Spent(old(answers), answers, 9 + config.polls)
      ensures r.Done? ==> !world.active && world.application == Standby
      ensures AllCalm(old(answers)) && |old(answers)| >= 9 + config.polls && config.polls > 0 ==> r.Done?
    {
      r := FenceAndRoute();
      ValidKept();
    }

    method ConfirmSigner() returns (r: Outcome<()>)
      requires Valid()
      modifies `world, `answers, `heard
      ensures Valid() && Drifted(old(world), world) && Spent(old(answers), answers, config.polls * config.signerRoles)
      ensures AllCalm(old(answers)) ==> world.signer == old(world).signer
      ensures AllCalm(old(answers)) && |old(answers)| >= config.polls * config.signerRoles && config.polls > 0
        ==> r.Done?
      ensures r.Done? ==> HealthyBefore(heard, 0, config.signerRoles)
    {
      r := VerifySigner();
      ValidKept();
    }

    method FenceAndRoute() returns (r: Outcome<()>)
      modifies `world, `answers, `heard
      ensures Later(old(world), world) && (world.signer ==> old(world).signer)
      ensures Spent(old(answers), answers, 9 + config.polls)
      ensures r.Done? ==> !world.active && world.application == Standby
      ensures AllCalm(old(answers)) && |old(answers)| >= 9 + config.polls && config.polls > 0 ==> r.Done?
    {
      if config.platform == Docker {
        var _ :- Lookup(3);
      }
      var _ :- Stop(ActiveApp);
      r := RouteToStandby(Application);
    }

    /** Bind the commit to its key before anything is driven. */
    method BindCommit(id: string, commitKey: CommitKey) returns (r: Outcome<()>)
      requires Valid() && id in operations && operations[id].phase != PREPARING && operations[id].commitKey == None
      modifies `world, `answers, `heard, `operations, `disk, `behind
      ensures Consistent() && (!r.Crashed? ==> Valid())
      ensures Owes(old(behind), old(answers), behind, answers, r.Done?)
      ensures Drifted(old(world), world) && Spent(old(answers), answers, 1)
      ensures operations == old(operations)[id := old(operations)[id].(commitKey := Some(commitKey))]
      ensures Forward(old(disk), disk)
      ensures AllCalm(old(answers)) && old(answers) != [] ==> r.Done?
      ensures r.Done? ==> disk == operations
      ensures LostBy(old(answers)) ==> r.Refused? && disk == old(disk)
    {
      assert OperationOk(id, operations[id], world);
      operations := operations[id := operations[id].(commitKey := Some(commitKey))];
      r := Save();
    }

    method RecordCommitted(id: string, response: CommitResponse) returns (r: Outcome<CommitResponse>)
      requires Valid() && id in operations && operations[id].phase != PREPARING
      requires operations[id].commitKey.Some? && operations[id].committed == None && response.operation == id
      modifies `world, `answers, `heard, `operations, `disk, `behind
      ensures Consistent() && (!r.Crashed? ==> Valid())
      ensures Owes(old(behind), old(answers), behind, answers, r.Done?)
      ensures Drifted(old(world), world) && Spent(old(answers), answers, 1)
      ensures operations == old(operations)[id := old(operations)[id].(committed := Some(response), phase := COMMITTED)]
      ensures Forward(old(disk), disk)
      ensures r.Done? ==> r.value == response
      ensures AllCalm(old(answers)) ==> world.signer == old(world).signer
      ensures AllCalm(old(answers)) && old(answers) != [] ==> r.Done?
      ensures r.Done? && HealthyBefore(old(heard), 0, config.signerRoles) ==>
        HealthyBefore(heard, 1, config.signerRoles)
    {
      assert OperationOk(id, operations[id], world);
      operations := operations[id := operations[id].(committed := Some(response), phase := COMMITTED)];
      var saved := Save();
      r := if saved.Done? then Done(response) else saved.PropagateFailure();
    }

    /** The commit of a bound operation. */
    method RunCommit(id: string, now: nat) returns (r: Outcome<CommitResponse>)
      requires Valid() && id in operations && operations[id].phase != PREPARING
      requires operations[id].commitKey.Some? && operations[id].committed == None
      modifies `world, `answers, `heard, `operations, `disk, `behind, `fence, `unrecorded, `starts
      ensures Consistent() && (!r.Crashed? ==> Valid())
      ensures Owes(old(behind), old(answers), behind, answers, r.Done?)
      ensures Later(old(world), world)
      ensures StartsAre(old(Signing()), Signing(), !old(Says(disk, id)))
      ensures Forward(old(operations), operations) && Forward(old(disk), disk)
      ensures OnlyAt(old(operations), operations, id) && id in operations
      ensures operations[id].commitKey == old(operations)[id].commitKey
      ensures r.Done? ==> Answered(id, r.value, now) && !world.active && world.application == Standby
      ensures (AllCalm(old(answers)) && config.polls > 0
               && |old(answers)| >= 13 + 2 * config.polls + config.polls * config.signerRoles)
        ==> r.Done? && world.signer
      ensures r.Done? ==> HealthyBefore(heard, 1, config.signerRoles)
    {
      var driven := DriverCommit(id);
      ghost var started := Signing();
      r := AnswerDriven(id, driven, now);
      StartsThen(old(Signing()), started, Signing(), !old(Says(disk, id)));
    }

    /** A commit that was not driven to its end changes nothing on record. */
    method AnswerDriven(id: string, driven: Outcome<()>, now: nat) returns (r: Outcome<CommitResponse>)
      requires Valid() && id in operations && operations[id].phase != PREPARING
      requires operations[id].commitKey.Some? && operations[id].committed == None
      modifies `world, `answers, `heard, `operations, `disk, `behind
      ensures Consistent() && (!r.Crashed? ==> Valid())
      ensures Owes(old(behind), old(answers), behind, answers, r.Done?) && Drifted(old(world), world)
      ensures Forward(old(operations), operations) && Forward(old(disk), disk)
      ensures OnlyAt(old(operations), operations, id) && id in operations
      ensures operations[id].commitKey == old(operations)[id].commitKey
      ensures r.Done? ==> driven.Done? && Answered(id, r.value, now)
      ensures AllCalm(old(answers)) ==> world.signer == old(world).signer
      ensures AllCalm(old(answers)) && old(answers) != [] && driven.Done? ==> r.Done?
      ensures r.Done? && HealthyBefore(old(heard), 0, config.signerRoles) ==>
        HealthyBefore(heard, 1, config.signerRoles)
    {
      if driven.IsFailure() {
        ForwardSame(operations);
        ForwardSame(disk);
        r := driven.PropagateFailure();
      } else {
        r := AnswerCommit(id, now);
      }
    }

    /** The answer on record: the standby writes, and the RTO is the time from the capture to now. */
    ghost predicate Answered(id: string, response: CommitResponse, now: nat)
      reads this
    {
      && id in operations && operations[id].committed == Some(response) && operations[id].phase == COMMITTED
      && response.writer == config.standbyId && Some(response.capturedAt) == operations[id].capturedAt
      && response.committedAt == now && RoundedUp(response.rtoSeconds, response.capturedAt, now)
    }

    /** The answer of a driven commit, with the time since the capture, goes on record. */
    method AnswerCommit(id: string, now: nat) returns (r: Outcome<CommitResponse>)
      requires Valid() && id in operations && operations[id].phase != PREPARING
      requires operations[id].commitKey.Some? && operations[id].committed == None
      modifies `world, `answers, `heard, `operations, `disk, `behind
      ensures Consistent() && (!r.Crashed? ==> Valid())
      ensures Owes(old(behind), old(answers), behind, answers, r.Done?)
      ensures Drifted(old(world), world)
      ensures Forward(old(operations), operations) && Forward(old(disk), disk)
      ensures OnlyAt(old(operations), operations, id) && id in operations
      ensures operations[id].commitKey == old(operations)[id].commitKey
      ensures r.Done? ==> Answered(id, r.value, now)
      ensures AllCalm(old(answers)) ==> world.signer == old(world).signer
      ensures AllCalm(old(answers)) && old(answers) != [] ==> r.Done?
      ensures r.Done? && HealthyBefore(old(heard), 0, config.signerRoles) ==>
        HealthyBefore(heard, 1, config.signerRoles)
    {
      assert OperationOk(id, operations[id], world);
      var capturedAt := operations[id].capturedAt.value;
      RtoRoundsUp(capturedAt, now);
      r := RecordCommitted(
        id, CommitResponse(id, config.standbyId, RtoSeconds(capturedAt, now), capturedAt, now));
      OneForward(old(operations), operations, id);
    }

    predicate CommitConflicts(id: string, commitKey: CommitKey)
      reads this
    {
      id in operations && operations[id].commitKey.Some? && operations[id].commitKey != Some(commitKey)
    }

    /** now is the clock when the driver is done. */
    method Commit(id: string, key: string, ownerHash: string, now: nat) returns (r: Outcome<CommitResponse>)
      requires Valid()
      modifies `world, `answers, `heard, `operations, `disk, `behind, `fence, `unrecorded, `starts
      ensures Consistent() && (!r.Crashed? ==> Valid())
      ensures Owes(old(behind), old(answers), behind, answers, r.Done?)
      ensures Later(old(world), world)
      ensures Forward(old(operations), operations) && Forward(old(disk), disk)
      // a start of the signer goes unrecorded exactly when the process has the operation prepared and bound to
      // its commit while the file does not have it prepared, which takes two lost saves in a row
      ensures StartsAre(old(Signing()), Signing(), id in old(operations) && old(operations)[id].commitKey.Some?
        && !old(Says(disk, id)))
      ensures starts > old(starts) && unrecorded ==> old(behind) >= 2
      ensures OnlyAt(old(operations), operations, id)
      // without a prepared operation, or with another key or body, nothing happens
      ensures (!SafeId(id) || !SafeId(key) || !Hex64(ownerHash)
               || id !in old(operations) || old(operations)[id].phase == PREPARING
               || old(CommitConflicts(id, CommitKey(key, ownerHash)))) ==>
        r.Refused? && operations == old(operations) && disk == old(disk) && world == old(world)
        && answers == old(answers)
      // a finished commit is replayed
      ensures (SafeId(id) && SafeId(key) && Hex64(ownerHash) && id in old(operations)
               && old(operations)[id].committed.Some? && !old(CommitConflicts(id, CommitKey(key, ownerHash)))) ==>
        r == Done(old(operations)[id].committed.value) && operations == old(operations)
        && disk == old(disk) && world == old(world) && answers == old(answers)
      ensures r.Done? ==>
        && id in operations && operations[id].committed == Some(r.value) && operations[id].phase == COMMITTED
        && (operations == old(operations) ||
            (!world.active && world.application == Standby && Answered(id, r.value, now)
             && HealthyBefore(heard, 1, config.signerRoles)))
      // an operation is only ever bound to the key and body that committed it
      ensures (id in operations && operations[id].commitKey.Some?
        && !old(CommitConflicts(id, CommitKey(key, ownerHash)))
               && id in old(operations) && old(operations)[id].phase != PREPARING && SafeId(key) && SafeId(id)
                 && Hex64(ownerHash))
        ==> operations[id].commitKey == Some(CommitKey(key, ownerHash))
      // repeated in a calm environment it finishes, from wherever it was interrupted
      ensures (AllCalm(old(answers)) && config.polls > 0
               && |old(answers)| >= 14 + 2 * config.polls + config.polls * config.signerRoles
               && SafeId(id) && SafeId(key) && Hex64(ownerHash)
               && id in old(operations) && old(operations)[id].phase == PREPARED
               && !old(CommitConflicts(id, CommitKey(key, ownerHash))))
        ==> r.Done? && world.signer
    {
      if !SafeId(id) || !SafeId(key) { return Refused(400, "invalid-idempotency-key"); }
      if !Hex64(ownerHash) { return Refused(400, "invalid-request"); }
      if id !in operations || operations[id].phase == PREPARING { return Refused(409, "not-prepared"); }
      var commitKey := CommitKey(key, ownerHash);
      if CommitConflicts(id, commitKey) { return Refused(409, "idempotency-conflict"); }
      assert OperationOk(id, operations[id], world);
      if operations[id].committed.Some? { return Done(operations[id].committed.value); }
      if operations[id].commitKey.Some? {
        r := RunCommit(id, now);
      } else {
        r := FirstCommit(id, commitKey, now);
      }
    }

    method FirstCommit(id: string, commitKey: CommitKey, now: nat) returns (r: Outcome<CommitResponse>)
      requires Valid() && id in operations && operations[id].phase != PREPARING
      requires operations[id].commitKey == None && operations[id].committed == None
      modifies `world, `answers, `heard, `operations, `disk, `behind, `fence, `unrecorded, `starts
      ensures Consistent() && (!r.Crashed? ==> Valid())
      ensures Owes(old(behind), old(answers), behind, answers, r.Done?)
      ensures Later(old(world), world)
      ensures Forward(old(operations), operations) && Forward(old(disk), disk)
      ensures StartsAre(old(Signing()), Signing(), false)
      ensures OnlyAt(old(operations), operations, id) && id in operations
      ensures operations[id].commitKey == Some(commitKey)
      ensures r.Done? ==> Answered(id, r.value, now) && !world.active && world.application == Standby
      ensures (AllCalm(old(answers)) && config.polls > 0
               && |old(answers)| >= 14 + 2 * config.polls + config.polls * config.signerRoles)
        ==> r.Done? && world.signer
      ensures r.Done? ==> HealthyBefore(heard, 1, config.signerRoles)
    {
      var bound := BindCommit(id, commitKey);
      OneForward(old(operations), operations, id);
      if bound.IsFailure() {
        r := bound.PropagateFailure();
      } else {
        ghost var file, memory := disk, operations;
        r := RunCommit(id, now);
        ForwardTransitive(old(disk), file, disk);
        ForwardTransitive(old(operations), memory, operations);
      }
    }

    // ---- whole runs ----

    /**
     Any interleaving of prepare and commit calls by any callers, with the process killed and restarted
     anywhere: the signer runs only behind the fence of a recorded, prepared operation. lags tells how many
     saves the process had lost in a row at each call; the record can be missing only if that was two at some
     commit, so never in a run in which no process meets two failing commands.
     */
    method Serve(calls: seq<Call>) returns (ghost lags: seq<nat>)
      requires Valid()
      modifies `world, `answers, `heard, `operations, `disk, `behind, `fence, `unrecorded, `starts
      ensures Durable() && Forward(old(disk), disk) && Later(old(world), world)
      ensures world.signer ==>
        && !world.active && !world.primary && !world.recovery
        && (!unrecorded ==> exists id :: Recorded(disk, id, world.replay))
      ensures |lags| == |calls| && (calls != [] ==> lags[0] == old(behind))
      ensures forall i :: 0 <= i < |calls| - 1 ==> lags[i + 1] <= LagAfter(calls[i], lags[i])
      ensures !old(unrecorded) && (forall i :: 0 <= i < |calls| && calls[i].CommitCall? ==> lags[i] < 2)
        ==> !unrecorded
      ensures !old(unrecorded) && old(behind) + Losses(old(answers)) < 2
        && (forall i :: 0 <= i < |calls| ==> Mild(calls[i]))
        ==> !unrecorded
    {
      var alive := true;
      lags := [];
      ghost var mild := !unrecorded && behind + Losses(answers) < 2 && forall i :: 0 <= i < |calls| ==> Mild(calls[i]);
      for i := 0 to |calls|
        invariant Consistent() && (alive ==> Valid())
        invariant Forward(old(disk), disk) && Later(old(world), world)
        invariant |lags| == i && (if i == 0 then behind == old(behind) else lags[0] == old(behind))
        invariant forall k :: 0 <= k < i - 1 ==> lags[k + 1] <= LagAfter(calls[k], lags[k])
        invariant i > 0 ==> behind <= LagAfter(calls[i - 1], lags[i - 1])
        invariant !old(unrecorded) && (forall k :: 0 <= k < i && calls[k].CommitCall? ==> lags[k] < 2) ==> !unrecorded
        invariant mild ==> !unrecorded && behind + Losses(answers) < 2
      {
        ghost var file := disk;
        lags := lags + [behind];
        alive := ServeOne(calls[i], alive);
        ForwardTransitive(old(disk), file, disk);
      }
      if world.signer && !unrecorded {
        var id :| Says(disk, id) && disk[id].target == fence;
        assert Recorded(disk, id, world.replay);
      }
    }

    /** One call, unless the process is dead and this does not start a new one. */
    method ServeOne(call: Call, alive: bool) returns (lives: bool)
      requires Consistent() && (alive ==> Valid())
      modifies `world, `answers, `heard, `operations, `disk, `behind, `fence, `unrecorded, `starts
      ensures Consistent() && (lives ==> Valid())
      ensures Forward(old(disk), disk) && Later(old(world), world)
      ensures behind <= LagAfter(call, old(behind))
      ensures unrecorded ==> old(unrecorded) || (call.CommitCall? && old(behind) >= 2)
      ensures Mild(call) && old(behind) + Losses(old(answers)) < 2 ==> behind + Losses(answers) < 2
    {
      lives := alive;
      ForwardSame(disk);
      match call {
        case Boot(more) =>
          Restart(more);
          lives := true;
        case PrepareCall(key, request) =>
          if alive {
            var r := Prepare(key, request);
            lives := !r.Crashed?;
          }
        case CommitCall(id, key, ownerHash, now) =>
          if alive {
            var r := Commit(id, key, ownerHash, now);
            lives := !r.Crashed?;
          }
      }
    }

    /** The caller of an operation, and what a finished prepare left. */
    ghost predicate Ours(key: string, request: Request)
      reads this
    {
      var id := request.candidate;
      && (id in operations ==> operations[id].key == key && operations[id].request == request)
      && (Says(operations, id) ==> world.database == Standby)
    }

    /**
     Prepare attempted any number of times with the same key and body, each time with any answers, by the
     same process or, if that is dead or is restarted, by a new one, and at last in a calm environment.
     tried tells what each attempt found. The last one finishes, in the world of an uninterrupted call and
     at the target that any attempt found in the file, if and only if no new process found a file without a
     target and the primary down; and none does if every attempt is made by a new process.
     */
    method PrepareUntilDone(key: string, request: Request, interrupted: seq<Attempt>, last: Attempt)
      returns (r: Outcome<PrepareResponse>, ghost tried: seq<Tried<PrepareResponse>>)
      requires Valid() && Ours(key, request) && !world.signer && (world.primary ==> world.recovery)
      requires Resumable(operations, request.candidate, world)
      requires Refusal(config, key, request).None? && 2 <= config.witnesses == request.failedWitnesses
        && config.polls > 0
      requires forall i :: 0 <= i < |interrupted| ==> PrimarySurvives(interrupted[i].answers)
      requires AllCalm(last.answers) && |last.answers| >= 27 + config.witnesses + 4 * config.polls
      modifies `world, `answers, `heard, `operations, `disk, `behind
      ensures Traced(interrupted + [last], tried, old(operations), old(disk), old(world))
      ensures Reached(tried, operations, disk, world) && tried[|tried| - 1].answer == r
      ensures r.Done? <==> !Strands(tried, request.candidate)
      ensures r.Done? ==>
        && Fenced(world, r.value.target) && world.database == Standby && !world.signer
        && request.candidate in operations && operations[request.candidate].prepared == Some(r.value)
      ensures r.Done? ==> forall i :: 0 <= i < |tried| && TargetOf(tried[i].file, request.candidate).Some? ==>
        TargetOf(tried[i].file, request.candidate).value == r.value.target
      ensures old(operations) == old(disk) && AllAnew(interrupted) && last.restart ==> r.Done?
    {
      var alive;
      alive, tried := TryAll(key, request, interrupted);
      CalmSurvives(last.answers);
      r, alive, tried := TryNext(
        key, request, interrupted, last, tried, alive, old(operations), old(disk), old(world));
      if r.Done? { TargetsAnswered(tried, request.candidate, r.value); }
    }

    /** The attempts before the last. */
    method TryAll(key: string, request: Request, interrupted: seq<Attempt>)
      returns (alive: bool, ghost tried: seq<Tried<PrepareResponse>>)
      requires Story(key, request, [], [], true, operations, disk, world)
      requires Refusal(config, key, request).None?
      requires forall i :: 0 <= i < |interrupted| ==> PrimarySurvives(interrupted[i].answers)
      modifies `world, `answers, `heard, `operations, `disk, `behind
      ensures Story(key, request, interrupted, tried, alive, old(operations), old(disk), old(world))
      ensures Forward(old(disk), disk)
      ensures AllAnew(interrupted) && old(operations) == old(disk) ==>
        Resumable(disk, request.candidate, world) && !Strands(tried, request.candidate)
    {
      alive, tried := true, [];
      ghost var reread := operations == disk && AllAnew(interrupted);
      ForwardSame(disk);
      for i := 0 to |interrupted|
        invariant Story(key, request, interrupted[..i], tried, alive, old(operations), old(disk), old(world))
        invariant reread ==> Resumable(disk, request.candidate, world) && !Strands(tried, request.candidate)
        invariant Forward(old(disk), disk)
      {
        ghost var file := disk;
        var r;
        r, alive, tried := TryNext(
          key, request, interrupted[..i], interrupted[i], tried, alive, old(operations), old(disk), old(world));
        ForwardTransitive(old(disk), file, disk);
        assert interrupted[..i + 1] == interrupted[..i] + [interrupted[i]];
      }
      assert interrupted[..|interrupted|] == interrupted;
    }

    static ghost predicate AllAnew(attempts: seq<Attempt>)
    {
      forall i :: 0 <= i < |attempts| ==> attempts[i].restart
    }

    /** The attempts so far, and what they left. */
    ghost predicate Story(key: string, request: Request, attempts: seq<Attempt>, tried: seq<Tried<PrepareResponse>>,
                          alive: bool, memory: Operations, file: Operations, w: World)
      reads this
    {
      && Trying(key, request, alive, Strands(tried, request.candidate))
      && Traced(attempts, tried, memory, file, w)
      && Follows(tried, alive, memory, file, w)
      && TargetsKept(tried, disk, request.candidate)
    }

    static ghost predicate TargetsKept(tried: seq<Tried<PrepareResponse>>, file: Operations, id: string)
    {
      forall k :: 0 <= k < |tried| && TargetOf(tried[k].file, id).Some?
          ==> TargetOf(file, id) == TargetOf(tried[k].file, id)
    }

    static lemma TargetsMore(tried: seq<Tried<PrepareResponse>>, now: Tried<PrepareResponse>, file: Operations,
        id: string)
      requires TargetsKept(tried, now.file, id) && Forward(now.file, file)
      ensures TargetsKept(tried + [now], file, id)
    {
      TargetStays(now.file, file, id);
    }

    lemma TargetsAnswered(tried: seq<Tried<PrepareResponse>>, id: string, response: PrepareResponse)
      requires Consistent() && TargetsKept(tried, disk, id)
      requires id in operations && operations[id].prepared == Some(response)
      ensures forall i :: 0 <= i < |tried| && TargetOf(tried[i].file, id).Some? ==>
        TargetOf(tried[i].file, id).value == response.target
    {
      assert OperationOk(id, operations[id], world);
      TargetStays(disk, operations, id);
    }

    method TryNext(key: string, request: Request, ghost attempts: seq<Attempt>, attempt: Attempt,
                   ghost before: seq<Tried<PrepareResponse>>, alive: bool,
                   ghost memory: Operations, ghost file: Operations, ghost w: World)
      returns (r: Outcome<PrepareResponse>, lives: bool, ghost tried: seq<Tried<PrepareResponse>>)
      requires Story(key, request, attempts, before, alive, memory, file, w) && PrimarySurvives(attempt.answers)
      requires Refusal(config, key, request).None?
      modifies `world, `answers, `heard, `operations, `disk, `behind
      ensures Story(key, request, attempts + [attempt], tried, lives, memory, file, w)
      ensures |tried| == |before| + 1 && tried[|before|].answer == r && Forward(old(disk), disk)
      ensures Strands(tried, request.candidate) ==> !r.Done?
      ensures attempt.restart && Resumable(old(disk), request.candidate, old(world)) ==>
        Resumable(disk, request.candidate, world)
        && (Strands(tried, request.candidate) ==> Strands(before, request.candidate))
      ensures r.Done? ==>
        && request.candidate in operations && operations[request.candidate].prepared == Some(r.value)
        && Fenced(world, r.value.target) && world.database == Standby
      ensures (AllCalm(attempt.answers) && |attempt.answers| >= 27 + config.witnesses + 4 * config.polls
               && 2 <= config.witnesses == request.failedWitnesses && config.polls > 0
               && !Strands(tried, request.candidate))
        ==> r.Done?
    {
      ghost var now;
      r, lives, now := Try(key, request, attempt, alive, Strands(before, request.candidate));
      TracedMore(attempts, before, memory, file, w, attempt, now);
      StrandsMore(before, now, request.candidate);
      TargetsMore(before, now, disk, request.candidate);
      tried := before + [now];
    }

    static lemma CalmSurvives(answers: seq<Answer>)
      requires AllCalm(answers)
      ensures PrimarySurvives(answers)
    {
    }

    /** Between attempts: a process that is stranded, or one that can go on. */
    ghost predicate Trying(key: string, request: Request, alive: bool, stranded: bool)
      reads this
    {
      && Consistent() && (alive ==> Valid()) && Ours(key, request) && !world.signer
      && (world.primary ==> world.recovery)
      && (if stranded then Blocked(operations, request.candidate, world)
        else Resumable(operations, request.candidate, world))
    }

    /** ... and how that follows the attempts so far. */
    ghost predicate Follows<T(!new)>(tried: seq<Tried<T>>, alive: bool, memory: Operations, file: Operations, w: World)
      reads this
    {
      if tried == [] then alive && operations == memory && disk == file && world == w
      else Reached(tried, operations, disk, world) && (tried[|tried| - 1].answer.Crashed? <==> !alive)
    }

    /** One attempt, by this process or a new one; a new one is stranded by a file without a target. */
    method Try(key: string, request: Request, attempt: Attempt, alive: bool, ghost before: bool)
      returns (r: Outcome<PrepareResponse>, lives: bool, ghost now: Tried<PrepareResponse>)
      requires Trying(key, request, alive, before) && PrimarySurvives(attempt.answers)
      requires Refusal(config, key, request).None?
      modifies `world, `answers, `heard, `operations, `disk, `behind
      ensures Trying(key, request, lives, before || StrandedAt(now, request.candidate))
      ensures now.anew == (attempt.restart || !alive) && now.file == old(disk) && now.world == old(world)
      ensures now.memory == (if now.anew then old(disk) else old(operations)) && now.answer == r
      ensures Forward(now.memory, operations) && Forward(now.file, disk) && Later(now.world, world)
      ensures r.Crashed? <==> !lives
      ensures before || StrandedAt(now, request.candidate) ==> !r.Done?
      ensures attempt.restart && Resumable(old(disk), request.candidate, old(world)) ==>
        !StrandedAt(now, request.candidate) && Resumable(disk, request.candidate, world)
      ensures r.Done? ==>
        && request.candidate in operations && operations[request.candidate].prepared == Some(r.value)
        && Fenced(world, r.value.target) && world.database == Standby
      ensures (AllCalm(attempt.answers) && |attempt.answers| >= 27 + config.witnesses + 4 * config.polls
               && 2 <= config.witnesses == request.failedWitnesses && config.polls > 0
               && !before && !StrandedAt(now, request.candidate))
        ==> r.Done?
    {
      FileBlocked(request.candidate);
      SameCaller(key, request);
      ghost var file, w := disk, world;
      if attempt.restart || !alive {
        Restart(attempt.answers);
      } else {
        answers := attempt.answers;
      }
      ghost var memory := operations;
      r := Prepare(key, request);
      lives := !r.Crashed?;
      now := Tried(attempt.restart || !alive, memory, file, w, r);
    }

    /** The file has no target that the process does not have; and what else it lacks does not matter. */
    lemma FileBlocked(id: string)
      requires Consistent() && (world.primary ==> world.recovery)
      ensures Blocked(operations, id, world) ==> Blocked(disk, id, world)
      ensures Resumable(operations, id, world) && !Blocked(disk, id, world) ==> Resumable(disk, id, world)
    {
      if id in disk {
        assert OperationForward(disk[id], operations[id]);
        assert OperationOk(id, disk[id], world);
      }
    }

    /**
     A new process can be stranded: the save of the target is lost, the same process goes on from its
     memory and stops the primary, and dies before its next save.
     */
    method Stranded(id: string, target: nat, now: nat, failed: Answer, calm: seq<Answer>)
      requires Valid() && disk == operations && id in operations && operations[id].phase == PREPARING
      requires operations[id].target == None && target <= world.flush && world.primary && world.recovery
        && !world.signer
      requires LostBy([failed]) && !failed.primaryDies
      requires AllCalm(calm) && |calm| >= 23 + 4 * config.polls && config.polls > 0
      modifies `world, `answers, `heard, `operations, `disk, `behind
      ensures Valid() && operations == disk && Blocked(disk, id, world)
    {
      LoseTarget(id, target, now, failed);
      DriveAndDie(id, calm);
      Restart([]);
    }

    method LoseTarget(id: string, target: nat, now: nat, failed: Answer)
      requires Valid() && id in operations && operations[id].phase == PREPARING
      requires operations[id].target == None && target <= world.flush && world.recovery && !world.signer
      requires LostBy([failed]) && !failed.primaryDies
      modifies `world, `answers, `heard, `operations, `disk, `behind
      ensures Valid() && disk == old(disk) && id in operations && operations[id].phase == PREPARING
      ensures operations[id].target.Some? && world.recovery && !world.signer
    {
      answers := [failed];
      var checkpoint := Checkpoint(id, target, now);
    }

    method DriveAndDie(id: string, calm: seq<Answer>)
      requires Valid() && id in operations && operations[id].phase == PREPARING && operations[id].target.Some?
      requires world.recovery && !world.signer
      requires AllCalm(calm) && |calm| >= 23 + 4 * config.polls && config.polls > 0
      modifies `world, `answers, `heard, `operations, `disk, `behind
      ensures Consistent() && disk == old(disk) && !world.primary
    {
      answers := calm;
      var driven := DriverPrepare(id);
      answers := [];
      var recorded := RecordPrepared(id, driven.value);
    }

    static lemma TargetStays(ops: Operations, ops': Operations, id: string)
      requires Forward(ops, ops')
      ensures TargetOf(ops, id).Some? ==> TargetOf(ops', id) == TargetOf(ops, id)
    {
      if id in ops { assert OperationForward(ops[id], ops'[id]); }
    }

    /** The commit of a prepared operation, as far as it got: this key and body can go on with it. */
    static ghost predicate Committable(ops: Operations, id: string, commitKey: CommitKey)
    {
      Says(ops, id) && (ops[id].commitKey == None || ops[id].commitKey == Some(commitKey))
    }

    /**
     Commit attempted any number of times with the same key and body, by the same process or new ones, and
     at last in a calm environment: it answers with what is on record if and only if no new process found a
     file that does not have the operation prepared; and unless that answer was on record before, the old
     side is stopped, the standby routed and the signer running.
     */
    method CommitUntilDone(id: string, key: string, ownerHash: string, now: nat,
                           interrupted: seq<Attempt>, last: Attempt)
      returns (r: Outcome<CommitResponse>, ghost tried: seq<Tried<CommitResponse>>)
      requires Valid() && Committable(operations, id, CommitKey(key, ownerHash))
      requires SafeId(id) && SafeId(key) && Hex64(ownerHash) && config.polls > 0
      requires AllCalm(last.answers)
      requires |last.answers| >= 14 + 2 * config.polls + config.polls * config.signerRoles
      modifies `world, `answers, `heard, `operations, `disk, `behind, `fence, `unrecorded, `starts
      ensures Traced(interrupted + [last], tried, old(operations), old(disk), old(world))
      ensures Reached(tried, operations, disk, world) && tried[|tried| - 1].answer == r
      ensures r.Done? <==> !Forgets(tried, id)
      ensures r.Done? ==> id in operations && operations[id].committed == Some(r.value) && r.value.operation == id
      ensures r.Done? ==> Driven(tried[|tried| - 1], id, world)
    {
      var alive := true;
      tried := [];
      for i := 0 to |interrupted|
        invariant CommitStory(id, CommitKey(key, ownerHash), interrupted[..i], tried, alive,
                              old(operations), old(disk), old(world))
      {
        r, alive, tried := CommitNext(id, key, ownerHash, now, interrupted[..i], interrupted[i], tried, alive,
                                      old(operations), old(disk), old(world));
        assert interrupted[..i + 1] == interrupted[..i] + [interrupted[i]];
      }
      assert interrupted[..|interrupted|] == interrupted;
      r, alive, tried := CommitNext(id, key, ownerHash, now, interrupted, last, tried, alive,
                                    old(operations), old(disk), old(world));
    }

    /** The attempts so far, and what they left. */
    ghost predicate CommitStory(id: string, commitKey: CommitKey, attempts: seq<Attempt>,
                                tried: seq<Tried<CommitResponse>>, alive: bool,
                                memory: Operations, file: Operations, w: World)
      reads this
    {
      && Committing(id, commitKey, alive, Forgets(tried, id))
      && Traced(attempts, tried, memory, file, w)
      && Follows(tried, alive, memory, file, w)
    }

    method CommitNext(id: string, key: string, ownerHash: string, now: nat, ghost attempts: seq<Attempt>,
                      attempt: Attempt, ghost before: seq<Tried<CommitResponse>>, alive: bool,
                      ghost memory: Operations, ghost file: Operations, ghost w: World)
      returns (r: Outcome<CommitResponse>, lives: bool, ghost tried: seq<Tried<CommitResponse>>)
      requires CommitStory(id, CommitKey(key, ownerHash), attempts, before, alive, memory, file, w)
      requires SafeId(id) && SafeId(key) && Hex64(ownerHash)
      modifies `world, `answers, `heard, `operations, `disk, `behind, `fence, `unrecorded, `starts
      ensures CommitStory(id, CommitKey(key, ownerHash), attempts + [attempt], tried, lives, memory, file, w)
      ensures |tried| == |before| + 1 && tried[|before|].answer == r
      ensures Forgets(tried, id) ==> !r.Done?
      ensures r.Done? ==> id in operations && operations[id].committed == Some(r.value) && r.value.operation == id
      ensures (AllCalm(attempt.answers) && config.polls > 0 && !Forgets(tried, id)
               && |attempt.answers| >= 14 + 2 * config.polls + config.polls * config.signerRoles)
        ==> r.Done? && Driven(tried[|before|], id, world)
    {
      ghost var t;
      r, lives, t := TryCommit(id, key, ownerHash, now, attempt, alive, Forgets(before, id));
      TracedMore(attempts, before, memory, file, w, attempt, t);
      ForgetsMore(before, t, id);
      tried := before + [t];
    }

    /** Unless the answer was on record before this attempt, the attempt has taken its effects. */
    static ghost predicate Driven(t: Tried<CommitResponse>, id: string, w: World)
    {
      id in t.memory && t.memory[id].phase != COMMITTED ==> w.signer && !w.active && w.application == Standby
    }

    ghost predicate Committing(id: string, commitKey: CommitKey, alive: bool, forgotten: bool)
      reads this
    {
      && Consistent() && (alive ==> Valid())
      && (if forgotten then !Says(operations, id) else Committable(operations, id, commitKey))
    }

    method TryCommit(id: string, key: string, ownerHash: string, now: nat, attempt: Attempt, alive: bool,
        ghost before: bool)
      returns (r: Outcome<CommitResponse>, lives: bool, ghost t: Tried<CommitResponse>)
      requires Committing(id, CommitKey(key, ownerHash), alive, before)
      requires SafeId(id) && SafeId(key) && Hex64(ownerHash)
      modifies `world, `answers, `heard, `operations, `disk, `behind, `fence, `unrecorded, `starts
      ensures Committing(id, CommitKey(key, ownerHash), lives, before || ForgottenAt(t, id))
      ensures t.anew == (attempt.restart || !alive) && t.file == old(disk) && t.world == old(world)
      ensures t.memory == (if t.anew then old(disk) else old(operations)) && t.answer == r
      ensures Forward(t.memory, operations) && Forward(t.file, disk) && Later(t.world, world)
      ensures r.Crashed? <==> !lives
      ensures before || ForgottenAt(t, id) ==> !r.Done?
      ensures r.Done? ==> id in operations && operations[id].committed == Some(r.value) && r.value.operation == id
      ensures (AllCalm(attempt.answers) && config.polls > 0 && !before && !ForgottenAt(t, id)
               && |attempt.answers| >= 14 + 2 * config.polls + config.polls * config.signerRoles)
        ==> r.Done? && Driven(t, id, world)
    {
      FileCommittable(id, CommitKey(key, ownerHash));
      ghost var file, w := disk, world;
      if attempt.restart || !alive {
        Restart(attempt.answers);
      } else {
        answers := attempt.answers;
      }
      ghost var memory := operations;
      r := CommitOnce(id, key, ownerHash, now);
      lives := !r.Crashed?;
      t := Tried(attempt.restart || !alive, memory, file, w, r);
    }

    /** A commit that can be finished, or one of an operation that is not prepared. */
    method CommitOnce(id: string, key: string, ownerHash: string, now: nat) returns (r: Outcome<CommitResponse>)
      requires Valid() && SafeId(id) && SafeId(key) && Hex64(ownerHash)
      requires Says(operations, id) ==> Committable(operations, id, CommitKey(key, ownerHash))
      modifies `world, `answers, `heard, `operations, `disk, `behind, `fence, `unrecorded, `starts
      ensures Consistent() && (!r.Crashed? ==> Valid())
      ensures Forward(old(operations), operations) && Forward(old(disk), disk) && Later(old(world), world)
      ensures old(Says(operations, id)) ==> Committable(operations, id, CommitKey(key, ownerHash))
      ensures !old(Says(operations, id)) ==> !r.Done? && !Says(operations, id)
      ensures r.Done? ==> id in operations && operations[id].committed == Some(r.value) && r.value.operation == id
      ensures (AllCalm(old(answers)) && config.polls > 0 && old(Says(operations, id))
               && |old(answers)| >= 14 + 2 * config.polls + config.polls * config.signerRoles)
        ==> r.Done?
            && (old(operations)[id].phase != COMMITTED
              ==> world.signer && !world.active && world.application == Standby)
    {
      if id in operations { assert OperationOk(id, operations[id], world); }
      ghost var memory := operations;
      r := Commit(id, key, ownerHash, now);
      if id in operations { assert OperationOk(id, operations[id], world); }
      if id in memory { assert OperationForward(memory[id], operations[id]); }
    }

    lemma FileCommittable(id: string, commitKey: CommitKey)
      requires Consistent()
      ensures Committable(operations, id, commitKey) && Says(disk, id) ==> Committable(disk, id, commitKey)
      ensures !Says(operations, id) ==> !Says(disk, id)
    {
      if id in disk { assert OperationForward(disk[id], operations[id]); }
    }

    /**
     Two lost saves in a row do leave a start of the signer unrecorded: a prepared record and then its commit
     key, each kept by the process although its save raised without writing, let the next try start the
     signer while the file still says the operation is being prepared.
     */
    method LostSaves(id: string, response: PrepareResponse, commitKey: CommitKey, failed: Answer, calm: seq<Answer>)
      requires Valid() && disk == operations && id in operations && operations[id].phase == PREPARING && !world.signer
      requires operations[id].target == Some(response.target) && Fenced(world, response.target)
      requires response.operation == id && response.target <= response.replay && !response.signerActive
      requires SafeId(commitKey.key) && Hex64(commitKey.ownerHash)
      requires !failed.effect && !failed.ok && AllCalm(calm) && config.polls > 0
      requires |calm| >= 12 + 2 * config.polls + config.polls * config.signerRoles
      modifies `world, `answers, `heard, `operations, `disk, `behind, `fence, `unrecorded, `starts
      ensures behind >= 2 && unrecorded && world.signer && id in disk && disk[id].phase == PREPARING
    {
      answers := [failed];
      var recorded := RecordPrepared(id, response);
      answers := [failed];
      var bound := BindCommit(id, commitKey);
      answers := calm;
      var committed := DriverCommit(id);
    }

    lemma SameCaller(key: string, request: Request)
      requires Consistent() && Ours(key, request)
      ensures request.candidate in disk ==>
        disk[request.candidate].key == key && disk[request.candidate].request == request
      ensures Says(disk, request.candidate) ==> world.database == Standby
    {
      if request.candidate in disk {
        assert OperationForward(disk[request.candidate], operations[request.candidate]);
      }
    }
  }
}
