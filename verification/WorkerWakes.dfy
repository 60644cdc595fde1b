/** Whom one turn of the worker wakes. The requests that wait for another one with the same input are blocked in
    the queue; a publication or a clean completion wakes all of them, any other end only the one that waited
    longest, and nothing else wakes anybody. */
module WorkerWakes {
  import opened Common
  import opened PrefixCacheFlight
  import opened SchedulerSpec
  import opened SchedulerRuns
  import opened WorkerLedgers
  import opened ModelExecutorObject
  import opened RequestManagerObject
  import opened WorkerEnvironment
  import opened WorkerBooks
  import opened WorkerRounds

  /** A queued request that may not be admitted yet. */
  ghost predicate IsBlocked(s: State, x: RequestId) { exists i :: 0 <= i < |s.queue| && s.queue[i].id == x && s.queue[i].blocked }

  /** The requests that wait for this one, the oldest first. */
  function Following(s: State, id: RequestId): seq<RequestId> {
    if s.coordination.None? then []
    else
      var f := s.coordination.value;
      if id in f.flightOf && f.flightOf[id] in f.flights && f.flights[f.flightOf[id]].leader == id then f.flights[f.flightOf[id]].followers
      else []
  }

  function LongestWaiting(s: State, id: RequestId): seq<RequestId> {
    if Following(s, id) == [] then [] else [Following(s, id)[0]]
  }

  /** Exactly the listed requests are no longer blocked. */
  ghost predicate Wakes(s: State, s': State, woken: seq<RequestId>) {
    forall x :: IsBlocked(s', x) <==> IsBlocked(s, x) && x !in woken
  }

  lemma BlockedIsWaiting(cfg: Config, s: State, gone: set<RequestId>, x: RequestId)
    requires SchedulerOk(cfg, Tracked(s, gone))
    ensures IsBlocked(s, x) <==> Waits(s, x)
    ensures x in IdSet(s.active) || x in gone ==> !Waits(s, x)
  {
    hide FlightsOk, IsFollower, IsKnown, QueueOk;
    if Waits(s, x) { assert Holds(s.queue, x); }
    if x in IdSet(s.active) { assert Holds(s.active, x); }
  }

  // ---- The two ways to wake -----------------------------------------------------------------------

  /** Removing a request from its flight wakes all that follow it, if it completed, and one otherwise. */
  lemma RemoveWakes(f: Flights, id: RequestId, how: Termination, s: State)
    requires FlightsOk(f) && IsKnown(f, id) && !IsFollower(f, id) && s.coordination == Some(f)
    ensures var step := Remove(f, id, how);
            && step.runnable == Done(if how == Completed then Following(s, id) else LongestWaiting(s, id))
            && forall x :: IsFollower(step.flights, x) <==> IsFollower(f, x) && x !in step.runnable.value
  {
    RemoveExact(f, id, how);
    if id in f.flightOf { assert Registered(f, id); }
    hide FlightsOk;
    var step := Remove(f, id, how);
    if id in f.released { assert id !in f.flightOf; }
    forall x ensures IsFollower(step.flights, x) <==> IsFollower(f, x) && x !in step.runnable.value {
      if x == id { assert !IsKnown(step.flights, id); }
    }
  }

  lemma TerminateWakes(cfg: Config, s: State, id: RequestId, how: Termination)
    requires SchedulerOk(cfg, Tracked(s, {id}))
    ensures Wakes(s, Terminate(s, id, how).0, if how == Completed then Following(s, id) else LongestWaiting(s, id))
  {
    hide SchedulerOk, Remove, Unblock, IsBlocked, FlightsOk, IsFollower, IsKnown;
    TerminateMoves(cfg, s, id, how);
    var s' := Terminate(s, id, how).0;
    if s.coordination.Some? {
      Departing(cfg, s, id);
      RemoveWakes(s.coordination.value, id, how, s);
    }
    forall x ensures IsBlocked(s', x) <==> IsBlocked(s, x) && x !in (if how == Completed then Following(s, id) else LongestWaiting(s, id)) {
      BlockedIsWaiting(cfg, s, {id}, x);
      BlockedIsWaiting(cfg, s', {}, x);
    }
  }

  lemma Departing(cfg: Config, s: State, id: RequestId)
    requires SchedulerOk(cfg, Tracked(s, {id})) && s.coordination.Some?
    ensures FlightsOk(s.coordination.value) && IsKnown(s.coordination.value, id) && !IsFollower(s.coordination.value, id)
  {
    hide FlightsOk, IsFollower, IsKnown, QueueOk;
    assert InPlay(Tracked(s, {id}), id);
  }

  /** A leader's publication wakes all that follow it, once. */
  lemma PublicationWakes(cfg: Config, s: State, id: RequestId)
    requires SchedulerOk(cfg, Tracked(s, {})) && id in IdSet(s.active) && MustPublish(s, id)
    ensures var s' := ReleasePrefixFlight(s, id).0;
            Wakes(s, s', Following(s, id)) && !MustPublish(s', id) && Following(s', id) == []
  {
    hide SchedulerOk, Unblock, IsBlocked, FlightsOk, IsFollower, IsKnown;
    ReleaseMoves(cfg, s, id);
    RoleIsNotWaiting(cfg, s, {}, id);
    var (f, s') := (s.coordination.value, ReleasePrefixFlight(s, id).0);
    ReleaseExact(f, id);
    forall x ensures IsBlocked(s', x) <==> IsBlocked(s, x) && x !in Following(s, id) {
      BlockedIsWaiting(cfg, s, {}, x);
      BlockedIsWaiting(cfg, s', {}, x);
    }
  }

  // ---- A turn -------------------------------------------------------------------------------------

  lemma AbortWakes(cfg: Config, s: State, id: RequestId)
    requires SchedulerOk(cfg, Tracked(s, {})) && id in IdSet(s.active)
    ensures Wakes(s, Aborts(s, id), LongestWaiting(s, id))
  {
    hide SchedulerOk, Terminate, IdSet;
    RemoveActiveMoves(cfg, s, id);
    TerminateWakes(cfg, RemoveActive(s, id).0, id, Aborted);
  }

  /** Whom a phase wakes: a leader's first decode phase, if its prefix was published, all that follow it. */
  function WokenByPhase(s: State, id: RequestId, phase: GenerationPhase, publishes: bool): seq<RequestId> {
    var e := Entry(s, id);
    if phase.DecodePhase? && e.Some? && e.value.phase.Prefill? && MustPublish(s, id) && publishes then Following(s, id) else []
  }

  lemma HandleWakes(cfg: Config, s: State, id: RequestId, phase: GenerationPhase, publishes: bool)
    requires SchedulerOk(cfg, Tracked(s, {})) && id in IdSet(s.active) && !phase.FinishedPhase?
    ensures var (s', ok) := HandlePhase(s, id, phase, publishes);
            && Wakes(s, s', WokenByPhase(s, id, phase, publishes))
            && (ok && phase.DecodePhase? && Entry(s, id).Some? && Entry(s, id).value.phase.Prefill? ==> !MustPublish(s', id))
            && (!ok ==> Following(s', id) == Following(s, id))
  {
    hide SchedulerOk, UpdatePhase, ReleasePrefixFlight, IdSet, GoesForward, WorkerLedgers.InPrefill, IsBlocked, RequiresPublication;
    UpdateMeans(cfg, s, id, phase);
    PhaseMoves(cfg, s, id, phase);
    var (updated, r) := UpdatePhase(s, id, phase);
    SameQueueSameWaiting(s, updated, id);
    if r.PhaseOk? && r.mustPublish && publishes {
      ReleaseMoves(cfg, updated, id);
      PublicationWakes(cfg, updated, id);
      hide MustPublish, Following;
    }
  }

  lemma SameQueueSameWaiting(s: State, s': State, id: RequestId)
    requires s'.queue == s.queue && s'.coordination == s.coordination
    ensures Wakes(s, s', []) && Following(s', id) == Following(s, id) && MustPublish(s', id) == MustPublish(s, id)
    ensures forall x :: IsBlocked(s', x) == IsBlocked(s, x)
  {
  }

  /** Whom following one result wakes. */
  function WokenByResult(s: State, r: StepResult, drafted: bool, env: Environment): seq<RequestId> {
    match r.phase
    case None => LongestWaiting(s, r.id)
    case Some(phase) =>
      var report := env.finish(r.id);
      if phase.FinishedPhase? && report.outputOk && report.targetOk && (drafted ==> report.draftOk) then Following(s, r.id)
      else if phase.FinishedPhase? || Entry(s, r.id).None? || !Accepted(s, Entry(s, r.id).value, phase, env.publishes(r.id))
      then LongestWaiting(s, r.id)
      else WokenByPhase(s, r.id, phase, env.publishes(r.id))
  }

  /** Following a result wakes exactly those it should: all that wait for a request that published its prefix or
      completed, the one that waited longest for a request that ended otherwise, and nobody else. */
  lemma FollowWakes(cfg: Config, drafted: bool, b: Books, r: StepResult, env: Environment)
    requires InOrder(cfg, b) && r.id in IdSet(b.s.active)
    ensures Wakes(b.s, FollowBooks(b, r, drafted, env).s, WokenByResult(b.s, r, drafted, env))
  {
    hide SchedulerOk, HandlePhase, Terminate, Aborts, IdSet, MustPublish, IsBlocked, Accepted, Entry, Following;
    match r.phase
    case None => AbortWakes(cfg, b.s, r.id);
    case Some(phase) =>
      if phase.FinishedPhase? {
        FinishWakes(cfg, drafted, b, r, env);
      } else {
        HandleMeans(cfg, b.s, r.id, phase, env.publishes(r.id));
        HandleWakes(cfg, b.s, r.id, phase, env.publishes(r.id));
        var (s', ok) := HandlePhase(b.s, r.id, phase, env.publishes(r.id));
        if !ok {
          AbortWakes(cfg, s', r.id);
          RefusedWakesNobody(b.s, r.id, phase, env.publishes(r.id));
        }
      }
  }

  lemma RefusedWakesNobody(s: State, id: RequestId, phase: GenerationPhase, publishes: bool)
    requires Entry(s, id).Some? && !Accepted(s, Entry(s, id).value, phase, publishes)
    ensures WokenByPhase(s, id, phase, publishes) == []
  {
    EntryHeld(s, id);
  }

  lemma FinishWakes(cfg: Config, drafted: bool, b: Books, r: StepResult, env: Environment)
    requires InOrder(cfg, b) && r.id in IdSet(b.s.active) && r.phase == Some(FinishedPhase)
    ensures Wakes(b.s, FollowBooks(b, r, drafted, env).s, WokenByResult(b.s, r, drafted, env))
  {
    hide SchedulerOk, UpdatePhase, Terminate, Aborts, IdSet, GoesForward, IsBlocked;
    AlwaysForward(b.s, r.id);
    PhaseMoves(cfg, b.s, r.id, FinishedPhase);
    var finished := UpdatePhase(b.s, r.id, FinishedPhase).0;
    SameQueueSameWaiting(b.s, finished, r.id);
    TerminateWakes(cfg, finished, r.id, FinishHow(drafted, env.finish(r.id)));
  }

  /** A start wakes as following its first phase would; one that fails as an abort. */
  lemma StartWakes(cfg: Config, b: Books, id: RequestId, leaked: set<RequestId>, env: Environment)
    requires InOrder(cfg, b) && id in IdSet(b.s.active)
    ensures var start := if id in leaked then StartFails else env.start(id);
            && Entry(b.s, id).Some?
            && Wakes(b.s, StartBooks(b, id, leaked, env).s,
                     if start.StartFails? || !Accepted(b.s, Entry(b.s, id).value, InitialPhase(start), env.publishes(id)) then LongestWaiting(b.s, id)
                     else WokenByPhase(b.s, id, InitialPhase(start), env.publishes(id)))
  {
    hide SchedulerOk, HandlePhase, Terminate, Aborts, IdSet, MustPublish, IsBlocked, Accepted, Entry, Following;
    EntryHeld(b.s, id);
    var start := if id in leaked then StartFails else env.start(id);
    if start.StartFails? {
      AbortWakes(cfg, b.s, id);
    } else {
      HandleMeans(cfg, b.s, id, InitialPhase(start), env.publishes(id));
      HandleWakes(cfg, b.s, id, InitialPhase(start), env.publishes(id));
      var (s', ok) := HandlePhase(b.s, id, InitialPhase(start), env.publishes(id));
      if !ok {
        AbortWakes(cfg, s', id);
        RefusedWakesNobody(b.s, id, InitialPhase(start), env.publishes(id));
      }
    }
  }
}
