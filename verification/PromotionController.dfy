/**
 The promotion controller of scripts/promotion_controller.py: it watches the active coordinator
 through several witnesses and, after enough failed cycles in a row, has the failover provider
 prepare, the standby promoted, and the provider commit.
 */
module PromotionController {
  import opened Bytes
  import Lsn
  import W = FailoverWorld
  import P = FailoverProvider

  datatype Config = Config(
    witnesses: nat, activeId: string, standbyId: string, candidateId: string,
    failureThreshold: nat, maxCycles: nat, maxRto: nat, maxCheckpointAge: nat, armed: bool)
  {
    /** The ranges the environment is checked against. */
    ghost predicate Checked()
    {
      witnesses >= 2 && 3 <= failureThreshold <= 20
    }
  }

  // ---- watching ----

  datatype Health = Health(coordinatorId: string, configuredRole: string, effectiveRole: string,
                           acceptingWrites: bool, fenceFresh: bool)

  /** One polling cycle: what each witness answered (None: no answer), and the clock after the last of them. */
  datatype Cycle = Cycle(answers: seq<Option<Health>>, now: int)

  predicate ActiveHealthy(h: Option<Health>, activeId: string)
  {
    h.Some? && h.value.coordinatorId == activeId && h.value.effectiveRole == "active"
    && h.value.acceptingWrites && h.value.fenceFresh
  }

  predicate StandbyReady(h: Health, standbyId: string)
  {
    h.coordinatorId == standbyId && h.configuredRole == "standby" && h.effectiveRole == "standby"
    && !h.acceptingWrites
  }

  /** No witness sees a healthy active coordinator. */
  predicate Dark(c: Cycle, activeId: string)
  {
    forall i :: 0 <= i < |c.answers| ==> !ActiveHealthy(c.answers[i], activeId)
  }

  /** The last `threshold` of the first k cycles were dark. */
  ghost predicate Trips(cycles: seq<Cycle>, config: Config, k: int)
  {
    config.failureThreshold <= k <= |cycles| &&
    forall i :: k - config.failureThreshold <= i < k ==> Dark(cycles[i], config.activeId)
  }

  /** ... for the first time. */
  ghost predicate TripsFirst(cycles: seq<Cycle>, config: Config, k: int)
  {
    Trips(cycles, config, k) && forall j :: 0 <= j < k ==> !Trips(cycles, config, j)
  }

  datatype Watch =
    | Tripped(cycle: nat, firstFailure: int)
    | WindowComplete
    | StillWatching

  method CountHealthy(config: Config, cycle: Cycle) returns (healthy: nat)
    ensures healthy == 0 <==> Dark(cycle, config.activeId)
  {
    healthy := 0;
    for i := 0 to |cycle.answers|
      invariant healthy == 0 <==> forall j :: 0 <= j < i ==> !ActiveHealthy(cycle.answers[j], config.activeId)
    {
      if ActiveHealthy(cycle.answers[i], config.activeId) { healthy := healthy + 1; }
    }
  }

  /**
   The monitoring loop over the cycles that have happened so far. It trips at the first cycle that
   ends a run of `failureThreshold` dark ones, if that is within the cycle limit, and dates the
   failure from the first cycle of that run.
   */
  method Monitor(config: Config, cycles: seq<Cycle>) returns (w: Watch)
    requires config.Checked()
    ensures w.Tripped? ==>
      && TripsFirst(cycles, config, w.cycle)
      && (config.maxCycles == 0 || w.cycle <= config.maxCycles)
      && w.firstFailure == cycles[w.cycle - config.failureThreshold].now
    ensures w.WindowComplete? ==>
      && 0 < config.maxCycles <= |cycles| && forall j :: 0 <= j <= config.maxCycles ==> !Trips(cycles, config, j)
    ensures w.StillWatching? ==>
      && (config.maxCycles == 0 || |cycles| < config.maxCycles)
      && forall j :: 0 <= j <= |cycles| ==> !Trips(cycles, config, j)
  {
    var consecutive, firstFailure, cycle := 0, 0, 0;
    while cycle < |cycles|
      invariant 0 <= consecutive <= cycle <= |cycles| && consecutive < config.failureThreshold
      invariant config.maxCycles == 0 || cycle < config.maxCycles
      invariant forall i :: cycle - consecutive <= i < cycle ==> Dark(cycles[i], config.activeId)
      invariant consecutive < cycle ==> !Dark(cycles[cycle - consecutive - 1], config.activeId)
      invariant consecutive > 0 ==> firstFailure == cycles[cycle - consecutive].now
      invariant forall j :: 0 <= j <= cycle ==> !Trips(cycles, config, j)
    {
      cycle := cycle + 1;
      var healthy := CountHealthy(config, cycles[cycle - 1]);
      if healthy > 0 {
        consecutive, firstFailure := 0, 0;
        assert !Dark(cycles[cycle - 1], config.activeId);
        assert !Trips(cycles, config, cycle);
      } else {
        if consecutive == 0 { firstFailure := cycles[cycle - 1].now; }
        consecutive := consecutive + 1;
        if consecutive >= config.failureThreshold {
          return Tripped(cycle, firstFailure);
        }
        if consecutive < cycle {
          assert !Dark(cycles[cycle - consecutive - 1], config.activeId);
          assert !Trips(cycles, config, cycle);
        }
      }
      if config.maxCycles != 0 && cycle >= config.maxCycles { return WindowComplete; }
    }
    return StillWatching;
  }

  // ---- validating ----

  datatype PrepareBody = PrepareBody(
    operationId: string, status: string, activeFenced: bool, oldWriterTerminated: bool,
    targetCapturedByProvider: bool, databasePromoted: bool, standbyReplayAtOrAfterTarget: bool,
    indexerHeadMatchesL1: bool, stableDatabaseEndpointRouted: bool, standbySignerAuthorityInactive: bool,
    primaryTargetSource: string, primaryTargetLsn: string, standbyReplayLsn: string, checkpointAgeSeconds: int)

  datatype OwnerBody = OwnerBody(
    promoted: bool, indexerHeadMatchesL1: bool, effectiveRole: string, promotionReplication: bool)

  datatype CommitBody = CommitBody(
    operationId: string, writerRouteCommitted: bool, writerCoordinatorId: string, oldWriterRouteRemoved: bool,
    stableDatabaseEndpointRouted: bool, signerAuthorityActivatedAfterFence: bool)

  predicate ValidPrepare(config: Config, b: PrepareBody)
  {
    && b.operationId == config.candidateId
    && b.activeFenced && b.oldWriterTerminated && b.targetCapturedByProvider && b.databasePromoted
    && b.standbyReplayAtOrAfterTarget && b.indexerHeadMatchesL1 && b.stableDatabaseEndpointRouted
    && b.status == "READY_FOR_APPLICATION_PROMOTION"
    && b.primaryTargetSource == "durable-fenced-wal-checkpoint"
    && b.standbySignerAuthorityInactive
    && (match (Lsn.LsnValue(b.standbyReplayLsn), Lsn.LsnValue(b.primaryTargetLsn))
        case (Some(replay), Some(target)) => target <= replay
        case _ => false)
    && 0 <= b.checkpointAgeSeconds <= config.maxCheckpointAge
  }

  predicate ValidOwner(b: OwnerBody)
  {
    b.promoted && b.indexerHeadMatchesL1 && b.effectiveRole == "active" && b.promotionReplication
  }

  predicate ValidCommit(config: Config, b: CommitBody)
  {
    && b.operationId == config.candidateId && b.writerRouteCommitted
    && b.writerCoordinatorId == config.standbyId && b.oldWriterRouteRemoved
    && b.stableDatabaseEndpointRouted && b.signerAuthorityActivatedAfterFence
  }

  /** The one owner promotion, and the one commit, that the controller goes on with. */
  lemma OwnerAndCommitAre(config: Config, owner: OwnerBody, commit: CommitBody)
    ensures ValidOwner(owner) <==> owner == OwnerBody(true, true, "active", true)
    ensures ValidCommit(config, commit) <==>
      commit == CommitBody(config.candidateId, true, config.standbyId, true, true, true)
  {
  }

  /**
   The prepare responses it goes on with: of its candidate, every assertion true, a fresh enough checkpoint,
   and a standby that has replayed at least as far as the primary had written.
   */
  lemma PrepareIs(config: Config, b: PrepareBody)
    ensures ValidPrepare(config, b) <==>
      && b == PrepareBody(
                config.candidateId, "READY_FOR_APPLICATION_PROMOTION", true, true, true, true, true, true, true, true,
                "durable-fenced-wal-checkpoint", b.primaryTargetLsn, b.standbyReplayLsn, b.checkpointAgeSeconds)
      && 0 <= b.checkpointAgeSeconds <= config.maxCheckpointAge
      && exists target, replay ::
           && target <= replay
           && Some(target) == Lsn.LsnValue(b.primaryTargetLsn) && Some(replay) == Lsn.LsnValue(b.standbyReplayLsn)
  {
  }

  /** The health reports of a working active coordinator and of a standby that may take over. */
  lemma HealthIs(h: Option<Health>, id: string)
    ensures ActiveHealthy(h, id) <==> exists configured :: h == Some(Health(id, configured, "active", true, true))
    ensures h.Some? ==>
      (StandbyReady(h.value, id) <==> exists fence :: h.value == Health(id, "standby", "standby", false, fence))
  {
    if ActiveHealthy(h, id) { assert h == Some(Health(id, h.value.configuredRole, "active", true, true)); }
    if h.Some? && StandbyReady(h.value, id) {
      assert h.value == Health(id, "standby", "standby", false, h.value.fenceFresh);
    }
  }

  // ---- promoting ----

  /** What the other services would answer; None is a failed request. */
  datatype Services = Services(
    standby: Option<Health>, prepare: Option<PrepareBody>, owner: Option<OwnerBody>,
    commit: Option<CommitBody>, finished: int)

  datatype Request = Prepare(key: string, request: W.Request) | PromoteOwner(key: string) | Commit(key: string)

  datatype End = Promoted(rto: int) | NotPromoted | Monitoring | Failed(error: string)

  function PrepareRequest(config: Config): Request
  {
    Prepare(config.candidateId,
            W.Request(config.candidateId, config.activeId, config.standbyId, config.witnesses))
  }

  /** run: the requests made are returned as evidence of their order. */
  method Run(config: Config, cycles: seq<Cycle>, services: Services) returns (end: End, sent: seq<Request>)
    requires config.Checked()
    // prepare is called exactly when monitoring tripped, the controller is armed and the standby ready
    ensures sent != [] <==>
      && config.armed && services.standby.Some? && StandbyReady(services.standby.value, config.standbyId)
      && exists k :: Trips(cycles, config, k) && (config.maxCycles == 0 || k <= config.maxCycles)
    ensures sent != [] ==> sent[0] == PrepareRequest(config)
    // then each request is sent exactly when the answer to the one before it validates
    ensures |sent| >= 2 <==> sent != [] && services.prepare.Some? && ValidPrepare(config, services.prepare.value)
    ensures |sent| >= 2 ==> sent[1] == PromoteOwner(config.candidateId + ":owner")
    ensures |sent| >= 3 <==> |sent| >= 2 && services.owner.Some? && ValidOwner(services.owner.value)
    ensures |sent| >= 3 ==> sent[2] == Commit(config.candidateId + ":commit")
    ensures |sent| <= 3
    // success means a validated commit within the time allowed since the first cycle of the run
    ensures end.Promoted? <==>
      && |sent| == 3 && services.commit.Some? && ValidCommit(config, services.commit.value)
      && exists k :: TripsFirst(cycles, config, k)
                     && services.finished - cycles[k - config.failureThreshold].now <= config.maxRto
    ensures end.Promoted? ==>
      exists k :: TripsFirst(cycles, config, k)
                  && end.rto == services.finished - cycles[k - config.failureThreshold].now
  {
    sent := [];
    var w := Monitor(config, cycles);
    match w
    case StillWatching => end := Monitoring; return;
    case WindowComplete =>
      assert forall k :: Trips(cycles, config, k) ==> k > config.maxCycles;
      end := NotPromoted; return;
    case Tripped(k, firstFailure) =>
      assert Trips(cycles, config, k) && (config.maxCycles == 0 || k <= config.maxCycles);
      if !config.armed { return Failed("promotion controller is not armed"), []; }
      if services.standby.None? || !StandbyReady(services.standby.value, config.standbyId) {
        return Failed("standby coordinator is not signerless standby-ready"), [];
      }
      sent := [PrepareRequest(config)];
      if services.prepare.None? || !ValidPrepare(config, services.prepare.value) {
        return Failed("prepare response refused"), sent;
      }
      sent := sent + [PromoteOwner(config.candidateId + ":owner")];
      if services.owner.None? || !ValidOwner(services.owner.value) {
        return Failed("owner promotion refused"), sent;
      }
      sent := sent + [Commit(config.candidateId + ":commit")];
      if services.commit.None? || !ValidCommit(config, services.commit.value) {
        return Failed("commit response refused"), sent;
      }
      var rto := services.finished - firstFailure;
      if rto > config.maxRto { return Failed("promotion exceeded configured RTO"), sent; }
      end := Promoted(rto);
  }

  // ---- the two sides together ----

  /** The prepare response as the provider sends it: the constants are written in its drivers. */
  function PrepareBodyOf(r: W.PrepareResponse): PrepareBody
  {
    PrepareBody(
      r.operation, "READY_FOR_APPLICATION_PROMOTION", true, true, true, true, true, true, true, !r.signerActive,
      "durable-fenced-wal-checkpoint", Lsn.Render(r.target), Lsn.Render(r.replay), 0)
  }

  /** The controller accepts every prepare response a provider has on record for its candidate. */
  lemma RecordedPrepareValidates(config: Config, o: W.Operation, world: W.World)
    requires W.OperationOk(config.candidateId, o, world) && o.prepared.Some?
    ensures ValidPrepare(config, PrepareBodyOf(o.prepared.value))
  {
    Lsn.RenderReads(o.prepared.value.target);
    Lsn.RenderReads(o.prepared.value.replay);
  }

  /** The commit response as the provider sends it. */
  function CommitBodyOf(r: W.CommitResponse): CommitBody
  {
    CommitBody(r.operation, true, r.writer, true, true, true)
  }

  /** ... and every commit response on record of a provider whose standby is the controller's. */
  lemma RecordedCommitValidates(config: Config, o: W.Operation, world: W.World)
    requires W.OperationOk(config.candidateId, o, world) && o.committed.Some?
    ensures ValidCommit(config, CommitBodyOf(o.committed.value)) <==> o.committed.value.writer == config.standbyId
  {
  }

  /**
   A provider of the same topology takes the controller's prepare call, but its commit call only
   for candidate ids of at most 193 characters: the key is the id with a suffix, and keys end at 200.
   */
  lemma CallsAccepted(config: Config, provider: P.Config)
    requires W.SafeId(config.candidateId)
    requires config.activeId == provider.activeId && config.standbyId == provider.standbyId
    ensures P.Refusal(provider, PrepareRequest(config).key, PrepareRequest(config).request) == None
    ensures W.SafeId(config.candidateId + ":commit") <==> |config.candidateId| <= 193
  {
    var id, key := config.candidateId, config.candidateId + ":commit";
    assert key[0] == id[0];
    forall i | 0 <= i < |key|
      ensures W.SafeChar(key[i]) || key[i] in {'.', '_', ':', '-'}
    {
      if i < |id| { assert key[i] == id[i]; } else { assert key[i] == ":commit"[i - |id|]; }
    }
  }
}
