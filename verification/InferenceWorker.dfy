/** The worker: it accepts requests, and in each round admits and starts queued ones, executes one
    scheduling decision and takes finished, failed and cancelled requests off the books. What the
    model and the clients do in a round is an arbitrary `Environment`. */
module InferenceWorkerObject {
  import opened Common
  import opened Arithmetic
  import opened PrefixCacheFlight
  import opened SchedulerSpec
  import opened SchedulingDecision
  import opened SchedulerRuns
  import opened SchedulerObject
  import opened WorkerLedgers
  import opened ModelExecutorObject
  import opened RequestManagerObject
  import opened WorkerEnvironment
  import opened WorkerBooks
  import opened WorkerRounds

  /** The messages that arrive before one pass of the worker's loop, and what happens in its round. */
  datatype Turn = Turn(arriving: seq<Message>, env: Environment)

  class InferenceWorker {
    const scheduler: Scheduler
    const manager: RequestManager
    const executor: ModelExecutor
    /** Requests ever accepted, and those whose outcome was sent to the client. */
    ghost var accepted: multiset<RequestId>
    ghost var reported: multiset<RequestId>
    /** Requests off the books that still have a cache state. */
    ghost var leaked: set<RequestId>

    ghost function Footprint(): set<object> { {this, manager, executor} + scheduler.Footprint() }

    /** The scheduler, the stages and the reported outcomes. */
    ghost function Value(): Books
      reads Footprint()
    {
      Books(scheduler.Value(), manager.stages, reported)
    }

    /** The scheduler, the manager, the caches and the reported outcomes agree. */
    ghost predicate Agrees(starting: set<RequestId>)
      reads Footprint()
    {
      && scheduler.Valid()
      && Placed(scheduler.config, scheduler.Value(), manager.stages, starting)
      && executor.Holds(CachedIn(manager.stages) + leaked) && leaked !! CachedIn(manager.stages)
      && Accounted(accepted, reported, manager.stages)
    }

    constructor (cfg: Config, coordinated: bool, untilPublished: bool, withDraft: bool)
      requires cfg.pageTokens > 0 && cfg.maxActive > 0
      ensures Agrees({}) && Settled(manager.stages) && leaked == {} && manager.stages == map[] && scheduler.config == cfg
      ensures fresh(manager) && fresh(executor) && fresh(scheduler.Footprint())
    {
      scheduler := new Scheduler(cfg, coordinated, untilPublished);
      manager := new RequestManager();
      executor := new ModelExecutor(withDraft);
      accepted, reported, leaked := multiset{}, multiset{}, {};
      new;
      hide SchedulerOk, Placed, Empty, Accounted, CachedIn, FlightsOk, Agrees;
      NothingPlaced(cfg, scheduler.Value().coordination);
      assert scheduler.Value() == State([], [], None, scheduler.Value().coordination);
      Combine({});
    }

    lemma Combine(starting: set<RequestId>)
      requires scheduler.Valid() && Placed(scheduler.config, scheduler.Value(), manager.stages, starting)
      requires executor.Holds(CachedIn(manager.stages) + leaked) && leaked !! CachedIn(manager.stages)
      requires Accounted(accepted, reported, manager.stages)
      ensures Agrees(starting)
    {
    }

    /** A request whose id is on the books is refused; any other one is queued. */
    method EnqueueRequest(id: RequestId, input: seq<Token>, maxNew: nat, cached: nat) returns (ok: bool)
      requires Agrees({}) && input != [] && maxNew > 0
      requires CeilDiv(CachedDemand(|input|, maxNew), scheduler.config.pageTokens) <= scheduler.config.PageCapacity()
      modifies Footprint()
      ensures Agrees({}) && leaked == old(leaked) && reported == old(reported)
      ensures ok <==> id !in old(manager.stages)
      ensures manager.stages == if ok then old(manager.stages)[id := Queued] else old(manager.stages)
      ensures accepted == if ok then old(accepted) + multiset{id} else old(accepted)
      ensures scheduler.Value() ==
              if ok then Enqueue(scheduler.config, old(scheduler.Value()), id, input, maxNew, cached).0 else old(scheduler.Value())
    {
      hide Placed, Enqueue, Accounted;
      ghost var s, stages := scheduler.Value(), manager.stages;
      if id !in stages {
        Accepts(scheduler.config, s, stages, id, input, maxNew, cached);
        AcceptedOne(accepted, reported, stages, id, Queued);
      }
      ok := manager.AddRequest(scheduler, id, input, maxNew, cached);
      if ok { accepted := accepted + multiset{id}; }
    }

    /** Follows an executing request's phase, and publishes a leader's completed prefix before its
        followers are woken. */
    method HandleGenerationPhase(id: RequestId, phase: GenerationPhase, publishes: bool, ghost ids: set<RequestId>) returns (ok: bool)
      requires scheduler.Valid() && SchedulerOk(scheduler.config, Tracked(scheduler.Value(), {})) && id in IdSet(scheduler.Value().active)
      requires executor.Holds(ids) && id in ids
      modifies scheduler.Footprint()
      ensures scheduler.Valid()
      ensures SchedulerOk(scheduler.config, Tracked(scheduler.Value(), if phase.FinishedPhase? then {id} else {}))
      ensures IdSet(scheduler.Value().queue) == IdSet(old(scheduler.Value()).queue)
      ensures IdSet(scheduler.Value().active) == IdSet(old(scheduler.Value()).active) - (if phase.FinishedPhase? then {id} else {})
      ensures ok <==> Followed(old(scheduler.Value()), id, phase, publishes)
      ensures (scheduler.Value(), ok) == HandlePhase(old(scheduler.Value()), id, phase, publishes)
      ensures forall x, must :: x != id && Ready(old(scheduler.Value()), x, must) ==> Ready(scheduler.Value(), x, must)
    {
      hide SchedulerOk, UpdatePhase, GoesForward, RequiresPublication, IsFollower, InPrefill, SchedulerSpec.ReleasePrefixFlight;
      ghost var s := scheduler.Value();
      PhaseMoves(scheduler.config, s, id, phase);
      var r := scheduler.UpdateRequestPhase(id, phase);
      if r.PhaseError? { return false; }
      if !r.mustPublish { return true; }
      var published := executor.PublishCompletedPrefix(id, publishes, ids);
      if !published { return false; }
      ghost var s' := scheduler.Value();
      ReleaseMoves(scheduler.config, s', id);
      forall x, must | x != id && Ready(s, x, must) ensures Ready(SchedulerSpec.ReleasePrefixFlight(s', id).0, x, must) {
        ReleaseKeepsReady(scheduler.config, s', id, x, must);
      }
      var error := scheduler.ReleasePrefixFlight(id);
      ok := error.None?;
    }

    /** The model-side start of an admitted request. */
    method StartExecution(id: RequestId, report: StartReport, ghost starting: set<RequestId>) returns (start: StartReport)
      requires Agrees(starting) && id in starting
      modifies manager, executor
      ensures Agrees(starting - {id})
      ensures start == if id in leaked then StartFails else report
      ensures manager.stages == old(manager.stages)[id := if start.StartFails? then FailedToStart else Executing]
    {
      hide SchedulerOk, Accounted;
      ghost var s, stages, held := scheduler.Value(), manager.stages, CachedIn(manager.stages) + leaked;
      assert id !in CachedIn(stages);
      start := manager.StartExecution(executor, id, report, held);
      Starts(scheduler.config, s, stages, starting, id, if start.StartFails? then FailedToStart else Executing);
      assert manager.stages.Keys == stages.Keys;
      SameKeysAccounted(accepted, reported, stages, manager.stages);
      assert CachedIn(manager.stages) + leaked == if start.StartFails? then held else held + {id};
    }

    /** Starts an admitted request. */
    method StartRequest(id: RequestId, env: Environment, ghost starting: set<RequestId>) returns (ok: bool)
      requires Agrees(starting) && id in starting
      modifies manager, executor, scheduler.Footprint()
      ensures Agrees(starting - {id})
      ensures var start := if id in old(leaked) then StartFails else env.start(id);
              && manager.stages == old(manager.stages)[id := if start.StartFails? then FailedToStart else Executing]
              && (start.StartFails? ==> !ok)
              && (!start.StartFails? ==>
                    forall must :: Ready(old(scheduler.Value()), id, must) ==>
                      (ok <==> (start.StartsDecode? && must ==> env.publishes(id))))
              && (start.StartFails? ==> scheduler.Value() == old(scheduler.Value()))
              && (!start.StartFails? ==>
                    (scheduler.Value(), ok) == HandlePhase(old(scheduler.Value()), id, InitialPhase(start), env.publishes(id)))
      ensures forall x, must :: x != id && Ready(old(scheduler.Value()), x, must) ==> Ready(scheduler.Value(), x, must)
    {
      hide SchedulerOk, Accounted, Ready, Followed;
      ghost var s := scheduler.Value();
      var start := StartExecution(id, env.start(id), starting);
      if start.StartFails? { return false; }
      forall must | Ready(s, id, must)
        ensures Followed(s, id, InitialPhase(start), env.publishes(id)) <==> (start.StartsDecode? && must ==> env.publishes(id))
      {
        StartFollowed(scheduler.config, s, id, start, must, env.publishes(id));
      }
      ok := HandleGenerationPhase(id, InitialPhase(start), env.publishes(id), CachedIn(manager.stages) + leaked);
      StaysPlaced(scheduler.config, s, scheduler.Value(), manager.stages, starting - {id});
    }

    /** Takes a started request off the books and tells the client about the error. */
    method FinalizeRequestAbort(id: RequestId, ghost starting: set<RequestId>)
      requires scheduler.Valid() && Placed(scheduler.config, scheduler.Value(), manager.stages, starting)
      requires id in StartedIn(manager.stages) && Accounted(accepted, reported, manager.stages)
      modifies manager, scheduler.Footprint(), this`reported
      ensures scheduler.Valid() && Placed(scheduler.config, scheduler.Value(), manager.stages, starting)
      ensures manager.stages == old(manager.stages) - {id} && Accounted(accepted, reported, manager.stages)
      ensures reported == old(reported) + multiset{id} && scheduler.Value() == Aborts(old(scheduler.Value()), id)
      ensures forall x, must :: x != id && Ready(old(scheduler.Value()), x, must) ==> Ready(scheduler.Value(), x, must)
    {
      hide SchedulerOk, RemoveActive, Terminate, Ready, Accounted;
      ghost var s, stages := scheduler.Value(), manager.stages;
      DepartureMoves(scheduler.config, s, id, Aborted);
      ghost var s' := Terminate(RemoveActive(s, id).0, id, Aborted).0;
      Departs(scheduler.config, s, s', stages, starting, id);
      forall x, must | x != id && Ready(s, x, must) ensures Ready(s', x, must) {
        DepartureKeepsReady(scheduler.config, s, id, Aborted, x, must);
      }
      hide Placed;
      var error := scheduler.RemoveActiveRequest(id);
      assert error == None;
      var removed := manager.AbortRequest(id);
      assert removed;
      Reported(accepted, reported, stages, id);
      reported := reported + multiset{id};
      error := scheduler.TerminateRequest(id, Aborted);
      assert error == None;
      assert scheduler.Value() == s' && manager.stages == stages - {id};
    }

    /** Releases the model state of a started request and takes it off the books. */
    method AbortStartedRequest(id: RequestId, ghost starting: set<RequestId>)
      requires Agrees(starting) && id in CachedIn(manager.stages)
      modifies manager, executor, scheduler.Footprint(), this`reported
      ensures Agrees(starting) && Value() == OffBooks(old(Value()), Aborts(old(scheduler.Value()), id), id)
    {
      hide Placed, Accounted;
      var released := executor.AbortRequest(id);
      assert released;
      FinalizeRequestAbort(id, starting);
      assert CachedIn(manager.stages) == CachedIn(old(manager.stages)) - {id};
    }

    /** Follows a request after a step, and completes it when the step finished it. */
    method CompleteExecutionStep(id: RequestId, phase: GenerationPhase, env: Environment) returns (ok: bool)
      requires Agrees({}) && id in manager.stages && manager.stages[id] == Executing
      modifies manager, executor, scheduler.Footprint(), this`reported
      ensures Agrees({})
      ensures manager.stages == if ok && phase.FinishedPhase? then old(manager.stages) - {id} else old(manager.stages)
      ensures reported == if ok && phase.FinishedPhase? then old(reported) + multiset{id} else old(reported)
      ensures phase.FinishedPhase? || (phase.DecodePhase? && env.publishes(id)) ==> ok
      ensures var (s', followed) := HandlePhase(old(scheduler.Value()), id, phase, env.publishes(id));
              && ok == followed
              && scheduler.Value() == if phase.FinishedPhase? then Terminate(s', id, FinishHow(executor.drafted, env.finish(id))).0 else s'
    {
      hide SchedulerOk, UpdatePhase, InPrefill, Ready, Accounted;
      ghost var s, stages, held := scheduler.Value(), manager.stages, CachedIn(manager.stages) + leaked;
      assert id in CachedIn(stages) && id in StartedIn(stages);
      if phase.FinishedPhase? { FinishedFollowed(scheduler.config, s, id); }
      ok := HandleGenerationPhase(id, phase, env.publishes(id), held);
      if phase.FinishedPhase? {
        assert Leaving(scheduler.config, scheduler.Value(), stages, id);
        FinishRequest(id, env.finish(id));
      } else {
        StaysPlaced(scheduler.config, s, scheduler.Value(), stages, {});
      }
    }

    /** Takes a finished request off the books, completed or with the error of its last steps. */
    method FinishRequest(id: RequestId, report: FinishReport)
      requires scheduler.Valid() && Leaving(scheduler.config, scheduler.Value(), manager.stages, id)
      requires executor.Holds(CachedIn(manager.stages) + leaked) && leaked !! CachedIn(manager.stages)
      requires Accounted(accepted, reported, manager.stages)
      modifies manager, executor, scheduler.Footprint(), this`reported
      ensures Agrees({}) && manager.stages == old(manager.stages) - {id} && reported == old(reported) + multiset{id}
      ensures scheduler.Value() == Terminate(old(scheduler.Value()), id, FinishHow(executor.drafted, report)).0
    {
      hide SchedulerOk, Terminate, Placed, Accounted, CachedIn, Leaving, FlightsOk, Agrees;
      ghost var s, stages := scheduler.Value(), manager.stages;
      Leaves(scheduler.config, s, stages, id, Completed);
      Leaves(scheduler.config, s, stages, id, Aborted);
      var how := TakeFinished(id, report);
      var error := scheduler.TerminateRequest(id, how);
      assert error == None;
      Combine({});
    }

    /** The manager's and the model's part of finishing a request; says how its flight ends. */
    method TakeFinished(id: RequestId, report: FinishReport) returns (how: Termination)
      requires Leaving(scheduler.config, scheduler.Value(), manager.stages, id)
      requires executor.Holds(CachedIn(manager.stages) + leaked) && leaked !! CachedIn(manager.stages)
      requires Accounted(accepted, reported, manager.stages)
      modifies manager, executor, this`reported
      ensures manager.stages == old(manager.stages) - {id} && reported == old(reported) + multiset{id}
      ensures executor.Holds(CachedIn(manager.stages) + leaked) && leaked !! CachedIn(manager.stages)
      ensures Accounted(accepted, reported, manager.stages)
      ensures how == Completed <==> report.outputOk && report.targetOk && (executor.drafted ==> report.draftOk)
    {
      hide SchedulerOk, Terminate, Placed, Accounted, CachedIn, Leaving, FlightsOk, Agrees;
      ghost var stages := manager.stages;
      FinishedStage(scheduler.config, scheduler.Value(), stages, id);
      Leaves(scheduler.config, scheduler.Value(), stages, id, Completed);
      Reported(accepted, reported, stages, id);
      LeakStays(CachedIn(stages), leaked, id);
      var outcome := manager.FinishRequest(executor, id, report, CachedIn(stages) + leaked);
      assert outcome.Some?;
      reported := reported + multiset{id};
      how := if outcome.value then Completed else Aborted;
    }

    /** Takes a request whose start failed off the books. If it failed late, the caches keep its state. */
    method AbandonStart(id: RequestId, ghost starting: set<RequestId>)
      requires Agrees(starting) && id in manager.stages && (manager.stages[id] == Executing || manager.stages[id] == FailedToStart)
      modifies manager, scheduler.Footprint(), this
      ensures Agrees(starting) && accepted == old(accepted) && manager.stages == old(manager.stages) - {id}
      ensures leaked == old(leaked) + if old(manager.stages)[id] == Executing then {id} else {}
      ensures reported == old(reported) + multiset{id} && scheduler.Value() == Aborts(old(scheduler.Value()), id)
      ensures forall x, m :: x != id && Ready(old(scheduler.Value()), x, m) ==> Ready(scheduler.Value(), x, m)
    {
      hide SchedulerOk, Accounted, Ready, Placed, CachedIn;
      ghost var started: Stages := manager.stages;
      StartedCaches(started, id, leaked);
      FinalizeRequestAbort(id, starting);
      leaked := leaked + if started[id] == Executing then {id} else {};
    }

    /** Starts an admitted request, or takes it off the books with its error. */
    method StartOrAbort(id: RequestId, env: Environment, ghost starting: set<RequestId>, ghost must: bool)
      requires Agrees(starting) && id in starting && Ready(scheduler.Value(), id, must)
      modifies Footprint()
      ensures Agrees(starting - {id}) && accepted == old(accepted)
      ensures manager.stages == old(manager.stages)[id := Executing] || manager.stages == old(manager.stages) - {id}
      ensures env.start(id).StartFails? ==> manager.stages == old(manager.stages) - {id}
      ensures Value() == StartBooks(old(Value()), id, old(leaked), env)
      ensures leaked == old(leaked) + (if FailsLate(old(leaked), id, must, env) then {id} else {})
      ensures forall x, m :: x != id && Ready(old(scheduler.Value()), x, m) ==> Ready(scheduler.Value(), x, m)
    {
      hide SchedulerOk, Accounted, Ready, Placed, CachedIn;
      ghost var stages: Stages := manager.stages;
      PlacedStarting(scheduler.config, scheduler.Value(), stages, starting, id);
      var ok := StartRequest(id, env, starting);
      if !ok {
        AbandonStart(id, starting - {id});
        assert manager.stages == stages - {id};
      }
    }

    /** Follows one result: on to the next phase, or off the books. */
    method FollowResult(r: StepResult, env: Environment)
      requires Agrees({}) && ResultStage(manager.stages, r)
      modifies manager, executor, scheduler.Footprint(), this`reported
      ensures Agrees({}) && Handled(r, manager.stages, env) && Value() == FollowBooks(old(Value()), r, executor.drafted, env)
      ensures manager.stages == old(manager.stages) - {r.id} || (manager.stages == old(manager.stages) && manager.stages[r.id] == Executing)
    {
      hide Placed, Accounted;
      assert manager.HasStartedExecution(r.id);
      var done := false;
      if r.phase.Some? { done := CompleteExecutionStep(r.id, r.phase.value, env); }
      if !done { AbortStartedRequest(r.id, {}); }
    }

    method FollowResults(results: seq<StepResult>, env: Environment)
      requires Agrees({}) && Outstanding(manager.stages, results, 0)
      modifies manager, executor, scheduler.Footprint(), this`reported
      ensures Agrees({}) && Settled(manager.stages) && manager.stages.Keys <= old(manager.stages).Keys
      ensures OthersSame(old(manager.stages), manager.stages, ResultIds(results))
      ensures QueuedIn(manager.stages) == QueuedIn(old(manager.stages))
      ensures AllHandled(results, |results|, manager.stages, env)
      ensures Value() == FollowAllBooks(old(Value()), results, executor.drafted, env)
    {
      hide FollowBooks, Outstanding, Placed, Accounted, CachedIn, AllHandled, Settled, Handled, OthersSame, QueuedIn, ResultStage,
        HasResult, ResultIds;
      NobodyChanged(manager.stages, ResultIds(results));
      NoneHandled(results, manager.stages, env);
      for i := 0 to |results|
        invariant Agrees({}) && Outstanding(manager.stages, results, i) && manager.stages.Keys <= old(manager.stages).Keys
        invariant OthersSame(old(manager.stages), manager.stages, ResultIds(results))
        invariant QueuedIn(manager.stages) == QueuedIn(old(manager.stages))
        invariant AllHandled(results, i, manager.stages, env)
        invariant Value() == FollowAllBooks(old(Value()), results[..i], executor.drafted, env)
      {
        ghost var before := manager.stages;
        assert results[..i + 1][..i] == results[..i] && Last(results[..i + 1]) == results[i];
        NextResult(before, results, i);
        FollowResult(results[i], env);
        OneLess(before, manager.stages, results, i);
        StayHandled(before, manager.stages, results, i, env);
        OneFewer(old(manager.stages), before, manager.stages, results, i);
      }
      NothingOutstanding(manager.stages, results);
      assert results[..|results|] == results;
    }

    /** Executes one scheduling decision. */
    method ProcessSchedulingDecision(grants: seq<Grant>, env: Environment)
      requires Agrees({}) && Settled(manager.stages) && Distinct(GrantIds(grants))
      requires forall id :: id in GrantIds(grants) ==> id in manager.stages && manager.stages[id] == Executing
      modifies manager, executor, scheduler.Footprint(), this`reported
      ensures Agrees({}) && Settled(manager.stages) && manager.stages.Keys <= old(manager.stages).Keys
      ensures OthersSame(old(manager.stages), manager.stages, GrantIds(grants))
      ensures QueuedIn(manager.stages) == QueuedIn(old(manager.stages))
      ensures var (stages, results) := Advance(old(manager.stages), grants, env.closed, env.run);
              && AllHandled(results, |results|, manager.stages, env)
              && Value() == FollowAllBooks(old(Value()).(stages := stages), results, executor.drafted, env)
    {
      hide Placed, Accounted, Advance, SchedulerOk, AllHandled;
      ghost var stages := manager.stages;
      AdvanceExact(stages, grants, env.closed, env.run);
      var results := manager.AdvanceExecutions(grants, env.closed, env.run);
      ghost var advanced := manager.stages;
      AdvancedAgrees(stages, grants, advanced, results);
      Restaged(scheduler.config, scheduler.Value(), stages, advanced);
      SameKeysAccounted(accepted, reported, stages, advanced);
      hide Advanced, Outstanding, OthersSame, QueuedIn;
      FollowResults(results, env);
      OthersSameThrough(stages, grants, advanced, manager.stages, results);
    }

    /** Starts the admitted requests, or takes them off the books. */
    method StartAdmitted(ids: seq<RequestId>, env: Environment, ghost s: State)
      requires Agrees(Elements(ids)) && Settled(manager.stages) && Distinct(ids)
      requires forall k :: 0 <= k < |ids| ==> Ready(scheduler.Value(), ids[k], MustPublish(s, ids[k]))
      modifies Footprint()
      ensures Agrees({}) && Settled(manager.stages) && accepted == old(accepted) && manager.stages.Keys <= old(manager.stages).Keys
      ensures leaked == old(leaked) + LateAmong(ids, s, old(leaked), env)
      ensures QueuedIn(manager.stages) == QueuedIn(old(manager.stages)) - Elements(ids)
      ensures FailedStartsGone(ids, |ids|, env, manager.stages)
      ensures Value() == StartAllBooks(old(Value()), ids, old(leaked), env)
    {
      hide Placed, Accounted, SchedulerOk, Ready, FailsLate, MustPublish, CachedIn, QueuedIn, FailedStartsGone, StartBooks, StartAllBooks, LateAmong, Settled, ModelExecutor.Holds;
      ghost var stages := manager.stages;
      assert ids[0..] == ids;
      NoneStarted(Value(), leaked, s, env);
      FailedStartsNone(ids, env, stages);
      for i := 0 to |ids|
        invariant Agrees(Elements(ids[i..])) && Settled(manager.stages) && accepted == old(accepted)
        invariant forall k :: i <= k < |ids| ==> Ready(scheduler.Value(), ids[k], MustPublish(s, ids[k]))
        invariant leaked == old(leaked) + LateAmong(ids[..i], s, old(leaked), env)
        invariant manager.stages.Keys <= stages.Keys && QueuedIn(manager.stages) == QueuedIn(stages) - Elements(ids[..i])
        invariant FailedStartsGone(ids, i, env, manager.stages)
        invariant Value() == StartAllBooks(old(Value()), ids[..i], old(leaked), env)
      {
        OneMoreStart(old(Value()), ids, i, old(leaked), env);
        LateAreStarted(ids[..i], s, old(leaked), env);
        StartIgnoresOthers(old(leaked), LateAmong(ids[..i], s, old(leaked), env), Value(), ids, i, env);
        RestOf(ids, i);
        LateSoFar(ids, i, s, old(leaked), env);
        ghost var before := manager.stages;
        PlacedStarting(scheduler.config, scheduler.Value(), before, Elements(ids[i..]), ids[i]);
        StartOrAbort(ids[i], env, Elements(ids[i..]), MustPublish(s, ids[i]));
        OneStarted(before, manager.stages, ids, i, env);
      }
      assert ids[|ids|..] == [] && ids[..|ids|] == ids && Elements(ids[|ids|..]) == {};
    }

    /** One round. The ledgers agree again after it, except for the cache states of requests whose
        first publication failed right after their start: of none, if first publications work. Exactly the
        admitted requests leave the queue, and those whose start failed are off the books. Then somebody is
        scheduled if anybody can be, and each scheduled request follows the reply that is its own: it goes on
        in the reported phase, or leaves the books with one outcome. */
    method ProcessRequests(env: Environment)
      requires Agrees({}) && Settled(manager.stages)
      modifies Footprint()
      ensures Agrees({}) && Settled(manager.stages)
      ensures leaked == old(leaked) + LateFailures(scheduler.config, old(scheduler.Value()), old(leaked), env)
      ensures PublicationsWork(env) ==> leaked == old(leaked)
      ensures accepted == old(accepted) && manager.stages.Keys <= old(manager.stages).Keys
      ensures QueuedIn(manager.stages) == QueuedIn(old(manager.stages)) - Elements(Admit(scheduler.config, old(scheduler.Value())).1)
      ensures var ids := Admit(scheduler.config, old(scheduler.Value())).1;
              FailedStartsGone(ids, |ids|, env, manager.stages)
      ensures Value() == RoundBooks(scheduler.config, executor.drafted, old(Value()), old(leaked), env)
      ensures var started := StartedBooks(scheduler.config, old(Value()), old(leaked), env);
              StartsMean(scheduler.config, old(Value()), started, old(leaked), env) && StepsMean(scheduler.config, started, Value(), env)
    {
      hide FollowAllBooks, StartedBooks, Advance, Placed, Accounted, SchedulerOk, Admit, Decide, CachedIn, QueuedIn, FailedStartsGone,
        OthersSame, AllHandled, PublicationsWork, LateFailures, StartsMean, StepsMean;
      PlacedExecutes(scheduler.config, Value());
      RoundMeans(scheduler.config, executor.drafted, Value(), leaked, env);
      StartQueued(env);
      ghost var started := manager.stages;
      DecisionFits(scheduler.config, scheduler.Value(), started);
      var grants := scheduler.CreateSchedulingDecision();
      ProcessSchedulingDecision(grants, env);
      GoneStaysGone(Admit(scheduler.config, old(scheduler.Value())).1, env, started, manager.stages);
    }

    /** Admits queued requests and starts them. */
    method StartQueued(env: Environment)
      requires Agrees({}) && Settled(manager.stages)
      modifies Footprint()
      ensures Agrees({}) && Settled(manager.stages)
      ensures leaked == old(leaked) + LateFailures(scheduler.config, old(scheduler.Value()), old(leaked), env)
      ensures PublicationsWork(env) ==> leaked == old(leaked)
      ensures accepted == old(accepted) && manager.stages.Keys <= old(manager.stages).Keys
      ensures QueuedIn(manager.stages) == QueuedIn(old(manager.stages)) - Elements(Admit(scheduler.config, old(scheduler.Value())).1)
      ensures var ids := Admit(scheduler.config, old(scheduler.Value())).1;
              FailedStartsGone(ids, |ids|, env, manager.stages)
      ensures Value() == StartedBooks(scheduler.config, old(Value()), old(leaked), env)
    {
      hide StartAllBooks, Placed, Accounted, SchedulerOk, Admit, Ready, FailsLate, MustPublish, CachedIn, QueuedIn, FailedStartsGone,
        LateAmong, PublicationsWork;
      ghost var s, stages := scheduler.Value(), manager.stages;
      if PublicationsWork(env) { NothingLeaks(scheduler.config, s, leaked, env); }
      Admits(scheduler.config, s, stages);
      ghost var ids := Admit(scheduler.config, s).1;
      forall k | 0 <= k < |ids| ensures Ready(Admit(scheduler.config, s).0, ids[k], MustPublish(s, ids[k])) {
        PlacedOk(scheduler.config, s, stages);
        AdmittedReady(scheduler.config, s, ids[k]);
      }
      var admitted := scheduler.AdmitQueuedRequests();
      StartAdmitted(admitted, env, s);
    }

    /** The worker's loop: it waits for a request when it has none, takes what else has arrived, and
        processes one round. When all starts are as the caches have them, nothing ever leaks, and the
        caches hold state for exactly the active requests. */
    method Run(turns: seq<Turn>)
      requires Agrees({}) && Settled(manager.stages) && AllNormalized(scheduler.config, turns)
      modifies Footprint()
      ensures Agrees({}) && Settled(manager.stages)
      ensures AllAnswered(scheduler.config, turns) ==>
                leaked == old(leaked) && (old(leaked) == {} ==> executor.Holds(IdSet(scheduler.Value().active)))
      ensures (Value(), leaked) == RunBooks(scheduler.config, executor.drafted, old(Value()), old(leaked), turns)
    {
      hide Placed, Accounted, LateFailures, AllAnswered, PublicationsWork, Normalized, CachedIn, QueuedIn, TurnBooks;
      ghost var answered := AllAnswered(scheduler.config, turns);
      if answered { AllPublicationsWork(scheduler.config, turns); }
      var channel: seq<Message> := [];
      for i := 0 to |turns|
        invariant Agrees({}) && Settled(manager.stages) && channel == []
        invariant answered ==> leaked == old(leaked)
        invariant (Value(), leaked) == RunBooks(scheduler.config, executor.drafted, old(Value()), old(leaked), turns[..i])
      {
        assert turns[..i + 1][..i] == turns[..i] && Last(turns[..i + 1]) == turns[i];
        channel := channel + turns[i].arriving;
        channel := TakeTurn(channel, turns[i]);
      }
      assert turns[..|turns|] == turns;
      ActiveCached(scheduler.config, scheduler.Value(), manager.stages);
    }

    /** One pass of the loop. */
    method TakeTurn(arrived: seq<Message>, turn: Turn) returns (channel: seq<Message>)
      requires Agrees({}) && Settled(manager.stages) && arrived == turn.arriving
      requires forall j :: 0 <= j < |arrived| ==> Normalized(scheduler.config, arrived[j])
      modifies Footprint()
      ensures Agrees({}) && Settled(manager.stages) && channel == []
      ensures PublicationsWork(turn.env) ==> leaked == old(leaked)
      ensures (Value(), leaked) == TurnBooks(scheduler.config, executor.drafted, old(Value()), old(leaked), turn)
    {
      hide Placed, Accounted, LateFailures, PublicationsWork, Normalized, CachedIn, QueuedIn, FailedStartsGone, RoundBooks, StartsMean, StepsMean,
        StartedBooks;
      var waits: bool;
      channel, waits := TakeMessages(arrived);
      if waits { return; }
      ProcessRequests(turn.env);
    }

    /** Takes everything that has arrived: every request whose id is new is queued. A worker without requests
        waits for one first; it refuses none, since it has none of that id. */
    method TakeMessages(arrived: seq<Message>) returns (channel: seq<Message>, waits: bool)
      requires Agrees({}) && Settled(manager.stages) && forall j :: 0 <= j < |arrived| ==> Normalized(scheduler.config, arrived[j])
      modifies Footprint()
      ensures Agrees({}) && Settled(manager.stages) && leaked == old(leaked)
      ensures channel == [] && (waits <==> arrived == [] && old(scheduler.Value()).queue == [] && old(scheduler.Value()).active == [])
      ensures Value() == TakeAllBooks(scheduler.config, old(Value()), arrived)
      ensures forall j :: 0 <= j < |arrived| ==> arrived[j].id in manager.stages
    {
      hide Placed, Accounted, Normalized, CachedIn, QueuedIn, Enqueue;
      channel, waits := arrived, false;
      var vacant := scheduler.IsVacant();
      ghost var n: nat := 0;
      if vacant {
        VacantBooks(scheduler.config, scheduler.Value(), manager.stages);
        if channel == [] { return channel, true; }
        var taken := HandleMessage(channel[0]);
        channel := channel[1..];
        if !taken { return channel, true; }
        n := 1;
        assert arrived[..1][..0] == [] && Last(arrived[..1]) == arrived[0];
      }
      while channel != []
        invariant Agrees({}) && Settled(manager.stages) && leaked == old(leaked)
        invariant n <= |arrived| && channel == arrived[n..] && Value() == TakeAllBooks(scheduler.config, old(Value()), arrived[..n])
        decreases |channel|
      {
        assert arrived[..n + 1][..n] == arrived[..n] && Last(arrived[..n + 1]) == channel[0];
        var _ := HandleMessage(channel[0]);
        channel := channel[1..];
        n := n + 1;
      }
      assert arrived[..n] == arrived;
      EveryMessageTaken(scheduler.config, old(Value()), arrived);
    }

    method HandleMessage(m: Message) returns (ok: bool)
      requires Agrees({}) && Settled(manager.stages) && Normalized(scheduler.config, m)
      modifies Footprint()
      ensures Agrees({}) && Settled(manager.stages) && leaked == old(leaked) && reported == old(reported)
      ensures ok <==> m.id !in old(manager.stages)
      ensures manager.stages == if ok then old(manager.stages)[m.id := Queued] else old(manager.stages)
      ensures accepted == if ok then old(accepted) + multiset{m.id} else old(accepted)
      ensures Value() == TakeBooks(scheduler.config, old(Value()), m)
    {
      hide Placed, Accounted, CachedIn, QueuedIn, Enqueue;
      ok := EnqueueRequest(m.id, m.input, m.maxNew, m.cached);
    }
  }

  ghost predicate AllNormalized(cfg: Config, turns: seq<Turn>) {
    forall i, j :: 0 <= i < |turns| && 0 <= j < |turns[i].arriving| ==> Normalized(cfg, turns[i].arriving[j])
  }

  /** One pass of the loop on the books and the leaked cache states. */
  ghost function TurnBooks(cfg: Config, drafted: bool, b: Books, leaked: set<RequestId>, turn: Turn): (Books, set<RequestId>)
    requires cfg.pageTokens > 0 && forall j :: 0 <= j < |turn.arriving| ==> Normalized(cfg, turn.arriving[j])
  {
    if b.s.queue == [] && b.s.active == [] && turn.arriving == [] then (b, leaked)
    else
      var taken := TakeAllBooks(cfg, b, turn.arriving);
      (RoundBooks(cfg, drafted, taken, leaked, turn.env), leaked + LateFailures(cfg, taken.s, leaked, turn.env))
  }

  ghost function RunBooks(cfg: Config, drafted: bool, b: Books, leaked: set<RequestId>, turns: seq<Turn>): (Books, set<RequestId>)
    requires cfg.pageTokens > 0 && AllNormalized(cfg, turns)
    decreases |turns|
  {
    if turns == [] then (b, leaked)
    else
      var (before, late) := RunBooks(cfg, drafted, b, leaked, turns[..|turns| - 1]);
      TurnBooks(cfg, drafted, before, late, Last(turns))
  }

  /** A worker without queued and active requests has none on the books. */
  lemma VacantBooks(cfg: Config, s: State, stages: Stages)
    requires Placed(cfg, s, stages, {}) && Settled(stages)
    ensures s.queue == [] && s.active == [] ==> stages == map[]
  {
    hide SchedulerOk;
    assert stages.Keys == QueuedIn(stages) + StartedIn(stages);
    if s.queue == [] && s.active == [] {
      assert IdSet(s.queue) == {} && IdSet(s.active) == {};
      assert stages.Keys == {};
    }
  }

  /** Requests outside the list keep their stage. */
  ghost predicate OthersSame(stages: Stages, stages': Stages, ids: seq<RequestId>) {
    forall id :: id in stages && id !in ids ==> id in stages' && stages'[id] == stages[id]
  }

  /** The first n requests of the list whose start failed are off the books. */
  ghost predicate FailedStartsGone(ids: seq<RequestId>, n: nat, env: Environment, stages: Stages)
    requires n <= |ids|
  {
    forall j :: 0 <= j < n && env.start(ids[j]).StartFails? ==> ids[j] !in stages
  }

  lemma NobodyChanged(stages: Stages, ids: seq<RequestId>)
    ensures OthersSame(stages, stages, ids)
  {
  }

  lemma FailedStartsNone(ids: seq<RequestId>, env: Environment, stages: Stages)
    ensures FailedStartsGone(ids, 0, env, stages)
  {
  }

  lemma GoneStaysGone(ids: seq<RequestId>, env: Environment, stages: Stages, stages': Stages)
    requires FailedStartsGone(ids, |ids|, env, stages) && stages'.Keys <= stages.Keys
    ensures FailedStartsGone(ids, |ids|, env, stages')
  {
  }

  lemma OneStarted(stages: Stages, stages': Stages, ids: seq<RequestId>, i: nat, env: Environment)
    requires Distinct(ids) && i < |ids| && FailedStartsGone(ids, i, env, stages)
    requires stages' == stages[ids[i] := Executing] || stages' == stages - {ids[i]}
    requires env.start(ids[i]).StartFails? ==> stages' == stages - {ids[i]}
    ensures Settled(stages) ==> Settled(stages')
    ensures FailedStartsGone(ids, i + 1, env, stages') && QueuedIn(stages') == QueuedIn(stages) - {ids[i]}
    ensures Elements(ids[..i + 1]) == Elements(ids[..i]) + {ids[i]}
  {
    assert ids[..i + 1] == ids[..i] + [ids[i]];
  }

  lemma OneFewer(first: Stages, stages: Stages, stages': Stages, results: seq<StepResult>, i: nat)
    requires i < |results| && OthersSame(first, stages, ResultIds(results)) && ResultStage(stages, results[i])
    requires stages' == stages || stages' == stages - {results[i].id}
    ensures OthersSame(first, stages', ResultIds(results)) && QueuedIn(stages') == QueuedIn(stages)
  {
    assert ResultIds(results)[i] == results[i].id;
  }

  lemma NothingOutstanding(stages: Stages, results: seq<StepResult>)
    requires Outstanding(stages, results, |results|)
    ensures Settled(stages)
  {
  }

  lemma OthersSameThrough(stages: Stages, grants: seq<Grant>, advanced: Stages, stages': Stages, results: seq<StepResult>)
    requires Advanced(stages, grants, advanced, results) && OthersSame(advanced, stages', ResultIds(results))
    ensures OthersSame(stages, stages', GrantIds(grants))
  {
  }

  /** A request that fails after its start: it began decoding at once as the leader of a flight that
      needs its prefix published, and the publication failed. */
  ghost predicate FailsLate(leaked: set<RequestId>, id: RequestId, must: bool, env: Environment) {
    id !in leaked && env.start(id).StartsDecode? && must && !env.publishes(id)
  }

  ghost function LateAmong(ids: seq<RequestId>, s: State, leaked: set<RequestId>, env: Environment): set<RequestId> {
    set id | id in ids && FailsLate(leaked, id, MustPublish(s, id), env)
  }

  ghost function LateFailures(cfg: Config, s: State, leaked: set<RequestId>, env: Environment): set<RequestId>
    requires cfg.pageTokens > 0
  {
    LateAmong(Admit(cfg, s).1, s, leaked, env)
  }

  lemma NothingLeaks(cfg: Config, s: State, leaked: set<RequestId>, env: Environment)
    requires cfg.pageTokens > 0 && PublicationsWork(env)
    ensures LateFailures(cfg, s, leaked, env) == {}
  {
    hide Admit, MustPublish;
  }

  /** Every start of every turn is as some state of the caches in order has it. */
  ghost predicate AllAnswered(cfg: Config, turns: seq<Turn>) {
    forall i, id :: 0 <= i < |turns| ==> AnsweredByCaches(cfg, turns[i].env, id)
  }

  lemma AllPublicationsWork(cfg: Config, turns: seq<Turn>)
    requires AllAnswered(cfg, turns)
    ensures forall i :: 0 <= i < |turns| ==> PublicationsWork(turns[i].env)
  {
    hide AnsweredByCaches;
    forall i | 0 <= i < |turns| ensures PublicationsWork(turns[i].env) { FirstPublicationsWork(cfg, turns[i].env); }
  }

  lemma ActiveCached(cfg: Config, s: State, stages: Stages)
    requires Placed(cfg, s, stages, {}) && Settled(stages)
    ensures CachedIn(stages) == IdSet(s.active)
  {
    hide SchedulerOk;
    assert CachedIn(stages) == StartedIn(stages);
  }

  lemma RestOf(ids: seq<RequestId>, i: nat)
    requires Distinct(ids) && i < |ids|
    ensures ids[i] in Elements(ids[i..]) && Elements(ids[i..]) - {ids[i]} == Elements(ids[i + 1..])
    ensures forall k :: i < k < |ids| ==> ids[k] != ids[i]
  {
    assert ids[i..] == [ids[i]] + ids[i + 1..];
    assert ids[i] !in ids[i + 1..];
  }

  lemma NoneStarted(b: Books, leaked: set<RequestId>, s: State, env: Environment)
    ensures StartAllBooks(b, [], leaked, env) == b && LateAmong([], s, leaked, env) == {}
  {
  }

  lemma OneMoreStart(b: Books, ids: seq<RequestId>, i: nat, leaked: set<RequestId>, env: Environment)
    requires i < |ids|
    ensures StartAllBooks(b, ids[..i + 1], leaked, env) == StartBooks(StartAllBooks(b, ids[..i], leaked, env), ids[i], leaked, env)
  {
    hide StartBooks;
    assert ids[..i + 1][..i] == ids[..i] && Last(ids[..i + 1]) == ids[i];
  }

  lemma LateAreStarted(ids: seq<RequestId>, s: State, leaked: set<RequestId>, env: Environment)
    ensures forall id :: id in LateAmong(ids, s, leaked, env) ==> id in ids
  {
    hide FailsLate, MustPublish;
  }

  /** A start does not depend on what the other requests of the round left behind. */
  lemma StartIgnoresOthers(leaked: set<RequestId>, late: set<RequestId>, b: Books, ids: seq<RequestId>, i: nat, env: Environment)
    requires Distinct(ids) && i < |ids| && forall id :: id in late ==> id in ids[..i]
    ensures StartBooks(b, ids[i], leaked + late, env) == StartBooks(b, ids[i], leaked, env)
  {
    hide HandlePhase, Aborts;
    assert ids[i] !in ids[..i];
  }

  /** Whether a later request fails does not depend on the earlier ones. */
  lemma LateSoFar(ids: seq<RequestId>, i: nat, s: State, leaked: set<RequestId>, env: Environment)
    requires Distinct(ids) && i < |ids|
    ensures var so := leaked + LateAmong(ids[..i], s, leaked, env);
            var late := FailsLate(so, ids[i], MustPublish(s, ids[i]), env);
            so + (if late then {ids[i]} else {}) == leaked + LateAmong(ids[..i + 1], s, leaked, env)
  {
    hide MustPublish;
    assert ids[..i + 1] == ids[..i] + [ids[i]];
    assert ids[i] !in ids[..i];
  }

  lemma PlacedOk(cfg: Config, s: State, stages: Stages)
    requires Placed(cfg, s, stages, {})
    ensures SchedulerOk(cfg, Tracked(s, {}))
  {
  }

  lemma PlacedStarting(cfg: Config, s: State, stages: Stages, starting: set<RequestId>, id: RequestId)
    requires Placed(cfg, s, stages, starting) && id in starting
    ensures id in stages && stages[id] == Queued
  {
  }

  /** A request that is taken off the books right after its start leaves its cache state behind. */
  lemma StartedCaches(stages: Stages, id: RequestId, leaked: set<RequestId>)
    requires id in stages && (stages[id] == Executing || stages[id] == FailedToStart) && leaked !! CachedIn(stages)
    ensures id in StartedIn(stages)
    ensures var leaked' := leaked + if stages[id] == Executing then {id} else {};
            CachedIn(stages) + leaked == CachedIn(stages - {id}) + leaked' && leaked' !! CachedIn(stages - {id})
  {
    assert CachedIn(stages) == CachedIn(stages - {id}) + if stages[id] == Executing then {id} else {};
  }

  /** A decision goes to executing requests only, each at most once, and moves nobody. */
  lemma DecisionFits(cfg: Config, s: State, stages: Stages)
    requires Placed(cfg, s, stages, {}) && Settled(stages)
    ensures var (s', grants) := Decide(cfg, s);
            && Placed(cfg, s', stages, {}) && Distinct(GrantIds(grants))
            && forall id :: id in GrantIds(grants) ==> id in stages && stages[id] == Executing
  {
    hide Decide, FlightsOk, IsKnown, IsFollower;
    OneGrantEach(cfg, s);
    CursorOnly(cfg, s);
    var (s', grants) := Decide(cfg, s);
    assert SchedulerOk(cfg, Tracked(s', {}));
    forall id | id in GrantIds(grants) ensures id in stages && stages[id] == Executing {
      var i :| 0 <= i < |grants| && grants[i].id == id;
      assert id in IdSet(s.active);
    }
  }

  lemma CursorOnly(cfg: Config, s: State)
    ensures var s' := Decide(cfg, s).0;
            s'.queue == s.queue && s'.active == s.active && s'.coordination == s.coordination
  {
  }

  /** Results i and later are still to be handled; every request in a failed stage has one of them. */
  ghost predicate Outstanding(stages: Stages, results: seq<StepResult>, i: nat) {
    && Distinct(ResultIds(results))
    && (forall j :: i <= j < |results| ==> ResultStage(stages, results[j]))
    && (forall id :: id in stages && stages[id] != Queued && stages[id] != Executing ==> HasResult(results, i, id))
  }

  ghost predicate ResultStage(stages: Stages, r: StepResult) {
    r.id in stages &&
    if r.phase.Some? then stages[r.id] == Executing else stages[r.id] == FailedToExecute || stages[r.id] == Cancelled
  }

  ghost predicate HasResult(results: seq<StepResult>, i: nat, id: RequestId) {
    exists j :: i <= j < |results| && results[j].id == id
  }

  lemma AdvancedAgrees(stages: Stages, grants: seq<Grant>, stages': Stages, results: seq<StepResult>)
    requires Settled(stages) && Advanced(stages, grants, stages', results)
    requires forall id :: id in GrantIds(grants) ==> id in stages && stages[id] == Executing
    ensures Outstanding(stages', results, 0)
    ensures QueuedIn(stages') == QueuedIn(stages) && StartedIn(stages') == StartedIn(stages) && CachedIn(stages') == CachedIn(stages)
  {
    forall j | 0 <= j < |results| ensures ResultStage(stages', results[j]) {
      assert ResultIds(results)[j] == results[j].id && results[j].id in ResultIds(results);
      assert ResultFits(stages, stages', results[j]);
    }
    forall id | id in GrantIds(grants) ensures HasResult(results, 0, id) && stages'[id] != Queued && stages'[id] != FailedToStart {
      assert id in ResultIds(results);
      var j :| 0 <= j < |results| && ResultIds(results)[j] == id;
      assert results[j].id == id && ResultStage(stages', results[j]);
    }
  }

  /** How a result was followed: an error or a finish takes the request off the books, and a decode
      step whose publication works, if it needs one, leaves it executing. */
  ghost predicate Handled(r: StepResult, stages: Stages, env: Environment) {
    && (r.phase == None || r.phase == Some(FinishedPhase) ==> r.id !in stages)
    && (r.phase.Some? && r.phase.value.DecodePhase? && env.publishes(r.id) ==> r.id in stages && stages[r.id] == Executing)
  }

  ghost predicate AllHandled(results: seq<StepResult>, n: nat, stages: Stages, env: Environment)
    requires n <= |results|
  {
    forall j :: 0 <= j < n ==> Handled(results[j], stages, env)
  }

  lemma NoneHandled(results: seq<StepResult>, stages: Stages, env: Environment)
    ensures AllHandled(results, 0, stages, env)
  {
  }

  lemma NextResult(stages: Stages, results: seq<StepResult>, i: nat)
    requires Outstanding(stages, results, i) && i < |results|
    ensures ResultStage(stages, results[i]) && results[i].id in stages
  {
  }

  lemma StayHandled(stages: Stages, stages': Stages, results: seq<StepResult>, i: nat, env: Environment)
    requires i < |results| && Outstanding(stages, results, i) && AllHandled(results, i, stages, env)
    requires (stages' == stages || stages' == stages - {results[i].id}) && Handled(results[i], stages', env)
    ensures AllHandled(results, i + 1, stages', env)
  {
    forall j | 0 <= j < i ensures Handled(results[j], stages', env) {
      assert ResultIds(results)[j] != ResultIds(results)[i] && Handled(results[j], stages, env);
    }
  }

  lemma OneLess(stages: Stages, stages': Stages, results: seq<StepResult>, i: nat)
    requires i < |results| && Outstanding(stages, results, i)
    requires stages' == stages - {results[i].id} || (stages' == stages && stages[results[i].id] == Executing)
    ensures Outstanding(stages', results, i + 1)
  {
    forall j | i < j < |results| ensures ResultStage(stages', results[j]) {
      assert ResultIds(results)[j] != ResultIds(results)[i];
      assert ResultStage(stages, results[j]);
    }
    forall id | id in stages' && stages'[id] != Queued && stages'[id] != Executing ensures HasResult(results, i + 1, id) {
      assert HasResult(results, i, id);
      var j :| i <= j < |results| && results[j].id == id;
      assert j != i;
    }
  }

  lemma LeakStays(cached: set<RequestId>, leaked: set<RequestId>, id: RequestId)
    requires leaked !! cached && id in cached
    ensures (cached + leaked) - {id} == (cached - {id}) + leaked && leaked !! (cached - {id})
  {
  }

  lemma FinishedStage(cfg: Config, s: State, stages: Stages, id: RequestId)
    requires Leaving(cfg, s, stages, id)
    ensures id in stages && stages[id] == Executing
  {
  }

  /** A phase is followed when it goes forward and a publication it calls for works. */
  ghost predicate Followed(s: State, id: RequestId, phase: GenerationPhase, publishes: bool) {
    GoesForward(s, id, phase) && (UpdatePhase(s, id, phase).1 == PhaseOk(true) ==> publishes)
  }

  lemma StartFollowed(cfg: Config, s: State, id: RequestId, start: StartReport, must: bool, publishes: bool)
    requires SchedulerOk(cfg, Tracked(s, {})) && id in IdSet(s.active) && Ready(s, id, must) && !start.StartFails?
    ensures Followed(s, id, InitialPhase(start), publishes) <==> (start.StartsDecode? && must ==> publishes)
  {
    hide SchedulerOk, UpdatePhase, InPrefill, RequiresPublication;
    PhaseMoves(cfg, s, id, InitialPhase(start));
  }

  lemma FinishedFollowed(cfg: Config, s: State, id: RequestId)
    requires SchedulerOk(cfg, Tracked(s, {})) && id in IdSet(s.active)
    ensures Followed(s, id, FinishedPhase, true) && Followed(s, id, FinishedPhase, false)
  {
    hide SchedulerOk, UpdatePhase, InPrefill;
    PhaseMoves(cfg, s, id, FinishedPhase);
  }

  lemma SameKeysAccounted(accepted: multiset<RequestId>, reported: multiset<RequestId>, stages: Stages, stages': Stages)
    requires Accounted(accepted, reported, stages) && stages'.Keys == stages.Keys
    ensures Accounted(accepted, reported, stages')
  {
  }

  /** What agreement means between two rounds: the scheduler's queue and active list are the manager's
      queued and executing requests, and the caches hold state for exactly the executing ones if and
      only if nothing leaked. */
  lemma LedgersCoincide(cfg: Config, s: State, stages: Stages, held: set<RequestId>, leaked: set<RequestId>)
    requires Placed(cfg, s, stages, {}) && Settled(stages) && CachesHold(held, stages, leaked)
    ensures IdSet(s.queue) == QueuedIn(stages) && IdSet(s.active) == stages.Keys - QueuedIn(stages)
    ensures held == IdSet(s.active) <==> leaked == {}
  {
    hide SchedulerOk;
    assert StartedIn(stages) == CachedIn(stages) == stages.Keys - QueuedIn(stages);
    if leaked != {} {
      var id :| id in leaked;
      assert id in held && id !in IdSet(s.active);
    }
  }

  function NoFlights(): Flights { Flights(true, 0, map[], map[], map[], {}) }

  /** One queued request, a leader whose prefix must be published. */
  lemma OneLeaderQueued() returns (cfg: Config, s: State)
    ensures cfg == Config(16, 4, 64, 16, FirstComeFirstServed) && SchedulerOk(cfg, Tracked(s, {}))
    ensures |s.queue| == 1 && s.queue[0].id == 7 && !s.queue[0].blocked && s.queue[0].maxPages == 1 && s.active == []
    ensures MustPublish(s, 7)
  {
    hide SchedulerOk, Enqueue, MustPublish, FlightsOk;
    cfg := Config(16, 4, 64, 16, FirstComeFirstServed);
    var empty := State([], [], None, Some(NoFlights()));
    assert Empty(NoFlights());
    FreshSchedulerOk(cfg, Some(NoFlights()));
    assert CeilDiv(CachedDemand(1, 8), 16) == 1 && cfg.PageCapacity() == 4;
    assert !InPlay(Tracked(empty, {}), 7);
    EnqueueMoves(cfg, empty, 7, [0], 8, 0);
    s := Enqueue(cfg, empty, 7, [0], 8, 0).0;
    FirstIsLeader(cfg, empty);
  }

  lemma FirstIsLeader(cfg: Config, empty: State)
    requires empty == State([], [], None, Some(NoFlights())) && cfg.pageTokens == 16
    ensures var s := Enqueue(cfg, empty, 7, [0], 8, 0).0;
            && |s.queue| == 1 && s.queue[0].id == 7 && !s.queue[0].blocked && s.queue[0].maxPages == CeilDiv(CachedDemand(1, 8), 16)
            && s.active == [] && MustPublish(s, 7)
  {
    hide CeilDiv;
  }

  /** Why the worker depends on publication never failing (`WorkerEnvironment.FirstPublicationsWork`): if it
      failed for a request with a one-token input, which starts in decode, that leads a flight waiting for
      its prefix, the request's cache state would stay behind. */
  lemma LeakExample() returns (cfg: Config, s: State, env: Environment)
    ensures cfg.pageTokens > 0 && SchedulerOk(cfg, Tracked(s, {})) && s.queue != []
    ensures LateFailures(cfg, s, {}, env) == IdSet(s.queue)
  {
    hide SchedulerOk, MustPublish;
    cfg, s := OneLeaderQueued();
    env := Environment((id: RequestId) => StartsDecode, (id: RequestId) => false, {}, RunFails,
                       (id: RequestId) => FinishReport(true, true, true));
    var r := s.queue[0];
    assert s.queue == [r] && s.queue[1..] == [] && SumPages([]) == 0;
    assert AdmitFrom(4, s.queue, [], [], 4, []) == AdmitFrom(4, [], [], [r], 3, [7]);
    assert LateAmong([7], s, {}, env) == {7};
    assert Holds(s.queue, 7) && IdSet(s.queue) == {7};
  }
}
