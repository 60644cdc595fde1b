/** What the worker keeps about its requests: the scheduler's queue and active list, the manager's
    stages, and the ids the model caches hold. The lemmas say how each scheduler operation moves ids,
    and what the ledgers must agree on between two operations of the worker. */
module WorkerLedgers {
  import opened Common
  import opened Arithmetic
  import opened PrefixCacheFlight
  import opened SchedulerSpec
  import opened SchedulerRuns

  /** `RequestState`. */
  datatype Stage = Queued | Executing | FailedToStart | FailedToExecute | Cancelled

  type Stages = map<RequestId, Stage>

  function IdSet(s: seq<Request>): (ids: set<RequestId>)
    ensures forall id :: id in ids <==> Holds(s, id)
  {
    set i | 0 <= i < |s| :: s[i].id
  }

  function QueuedIn(stages: Stages): set<RequestId> { set id | id in stages && stages[id] == Queued }

  function StartedIn(stages: Stages): set<RequestId> { set id | id in stages && stages[id] != Queued }

  /** The requests whose stage says that the model caches hold state for them. */
  function CachedIn(stages: Stages): set<RequestId> {
    set id | id in stages && stages[id] != Queued && stages[id] != FailedToStart
  }

  /** The scheduler and the manager agree; `starting` are admitted but not started yet. */
  ghost predicate Placed(cfg: Config, s: State, stages: Stages, starting: set<RequestId>) {
    && SchedulerOk(cfg, Tracked(s, {}))
    && starting <= QueuedIn(stages)
    && IdSet(s.queue) == QueuedIn(stages) - starting
    && IdSet(s.active) == StartedIn(stages) + starting
  }

  /** Between two rounds no request is in a failed stage. */
  ghost predicate Settled(stages: Stages) {
    forall id :: id in stages ==> stages[id] == Queued || stages[id] == Executing
  }

  /** Each acceptance of a request is either still on the books or was reported, exactly once. */
  ghost predicate Accounted(accepted: multiset<RequestId>, reported: multiset<RequestId>, stages: Stages) {
    accepted == reported + multiset(stages.Keys)
  }

  /** The ids a model's caches hold when the stages' requests and the leaked ones are all they hold. */
  ghost predicate CachesHold(held: set<RequestId>, stages: Stages, leaked: set<RequestId>) {
    held == CachedIn(stages) + leaked && leaked !! CachedIn(stages)
  }

  /** Whether a prefix the request completes must be published before its flight is released. */
  predicate MustPublish(s: State, id: RequestId) { s.coordination.Some? && RequiresPublication(s.coordination.value, id) }

  ghost predicate Waits(s: State, id: RequestId) { s.coordination.Some? && IsFollower(s.coordination.value, id) }

  // ---- How the scheduler's operations move ids --------------------------------------------------

  lemma EnqueueMoves(cfg: Config, s: State, id: RequestId, input: seq<Token>, maxNew: nat, cached: nat)
    requires SchedulerOk(cfg, Tracked(s, {})) && Allowed(cfg, Tracked(s, {}), EnqueueOp(id, input, maxNew, cached))
    ensures var (s', error) := Enqueue(cfg, s, id, input, maxNew, cached);
            && error == None && SchedulerOk(cfg, Tracked(s', {}))
            && IdSet(s'.queue) == IdSet(s.queue) + {id} && s'.active == s.active
  {
    hide SchedulerOk, Add;
    StepKeepsOk(cfg, Tracked(s, {}), EnqueueOp(id, input, maxNew, cached));
    var s' := Enqueue(cfg, s, id, input, maxNew, cached).0;
    var r := Last(s'.queue);
    assert s'.queue == s.queue + [r] && r.id == id;
    forall x ensures Holds(s'.queue, x) <==> Holds(s.queue, x) || x == id {
      HoldsConcat(s.queue, [r], x);
      assert [r][0].id == id;
    }
  }

  lemma AdmitMoves(cfg: Config, s: State)
    requires SchedulerOk(cfg, Tracked(s, {}))
    ensures var (s', ids) := Admit(cfg, s);
            && SchedulerOk(cfg, Tracked(s', {})) && Distinct(ids) && Elements(ids) <= IdSet(s.queue)
            && IdSet(s'.queue) == IdSet(s.queue) - Elements(ids) && IdSet(s'.active) == IdSet(s.active) + Elements(ids)
            && s'.coordination == s.coordination
  {
    hide FlightsOk, Admit, LongestFitting, Unblocked, Blocked, PolicyOrder, SumPages, Coordinated, QueueOk;
    var t := Tracked(s, {});
    StepKeepsOk(cfg, t, AdmitOp);
    var n := AdmitExact(cfg, s);
    var moved := Unblocked(PolicyOrder(cfg.policy, s.queue))[..n];
    var (s', ids) := Admit(cfg, s);
    MovedPlaces(t, s', moved);
    assert s'.active == s.active + moved && ids == Ids(moved);
    forall x ensures Holds(s'.active, x) <==> Holds(s.active, x) || x in ids {
      HoldsConcat(s.active, moved, x);
      IdsHold(moved, x);
    }
    assert IdsDistinct(s'.active);
    forall i, j | 0 <= i < j < |ids| ensures ids[i] != ids[j] {
      assert s'.active[|s.active| + i] == moved[i] && s'.active[|s.active| + j] == moved[j];
    }
    forall x | x in ids ensures !Holds(s.active, x) && Holds(s.queue, x) {
      assert InPlay(Tracked(s', {}), x) <==> InPlay(t, x);
      var i :| 0 <= i < |ids| && ids[i] == x;
      assert s'.active[|s.active| + i] == moved[i];
      forall a | 0 <= a < |s.active| ensures s.active[a].id != x { assert s'.active[a] == s.active[a]; }
    }
    forall x ensures Holds(s'.queue, x) <==> Holds(s.queue, x) && x !in ids {
      assert InPlay(Tracked(s', {}), x) <==> InPlay(t, x);
    }
  }

  lemma IdsHold(s: seq<Request>, id: RequestId)
    ensures id in Ids(s) <==> Holds(s, id)
  {
    if Holds(s, id) {
      var i :| 0 <= i < |s| && s[i].id == id;
      assert Ids(s)[i] == id;
    }
  }

  lemma DropMoves(s: seq<Request>, k: nat)
    requires k < |s| && IdsDistinct(s)
    ensures IdSet(Drop(s, k)) == IdSet(s) - {s[k].id}
  {
    var d := Drop(s, k);
    DropExact(s, k);
    forall x ensures Holds(d, x) <==> Holds(s, x) && x != s[k].id {
      if i :| 0 <= i < |d| && d[i].id == x { assert s[if i < k then i else i + 1].id == x; }
      if i :| 0 <= i < |s| && s[i].id == x && i != k { assert d[if i < k then i else i - 1].id == x; }
    }
  }

  lemma {:induction false} UnblockKeepsIds(queue: seq<Request>, ids: seq<RequestId>)
    ensures Ids(Unblock(queue, ids).0) == Ids(queue)
    decreases |ids|
  {
    if ids != [] {
      PositionFound(queue, ids[0], 0);
      match Position(queue, ids[0])
      case None =>
      case Some(k) =>
        if queue[k].blocked {
          var next := queue[k := queue[k].(blocked := false)];
          UnblockKeepsIds(next, ids[1..]);
          assert Ids(next) == Ids(queue);
        }
    }
  }

  lemma SameIds(a: seq<Request>, b: seq<Request>)
    requires Ids(a) == Ids(b)
    ensures IdSet(a) == IdSet(b)
  {
    forall x ensures Holds(a, x) <==> Holds(b, x) {
      IdsHold(a, x);
      IdsHold(b, x);
    }
  }

  lemma WakeKeepsIds(s: State, step: FlightStep)
    ensures IdSet(Wake(s, step).0.queue) == IdSet(s.queue) && Wake(s, step).0.active == s.active
  {
    match step.runnable
    case Refused(_) =>
    case Done(ids) =>
      UnblockKeepsIds(s.queue, ids);
      SameIds(Unblock(s.queue, ids).0, s.queue);
  }

  lemma DropKeepsPrefills(s: State, s': State, k: nat)
    requires k < |s.active| && s'.active == Drop(s.active, k)
    ensures forall x :: x != s.active[k].id ==> (InPrefill(s', x) <==> InPrefill(s, x))
  {
    forall x | x != s.active[k].id ensures InPrefill(s', x) <==> InPrefill(s, x) {
      if i :| 0 <= i < |s'.active| && s'.active[i].id == x && s'.active[i].phase.Prefill? {
        assert s.active[if i < k then i else i + 1] == s'.active[i];
      }
      if i :| 0 <= i < |s.active| && s.active[i].id == x && s.active[i].phase.Prefill? {
        assert s'.active[if i < k then i else i - 1] == s.active[i];
      }
    }
  }

  lemma SetKeepsPrefills(s: State, s': State, k: nat)
    requires k < |s.active| && |s'.active| == |s.active| && s'.active == s.active[k := s'.active[k]] && s'.active[k].id == s.active[k].id
    ensures forall x :: x != s.active[k].id ==> (InPrefill(s', x) <==> InPrefill(s, x))
  {
    forall x | x != s.active[k].id ensures InPrefill(s', x) <==> InPrefill(s, x) {
      if i :| 0 <= i < |s'.active| && s'.active[i].id == x && s'.active[i].phase.Prefill? { assert s.active[i] == s'.active[i]; }
      if i :| 0 <= i < |s.active| && s.active[i].id == x && s.active[i].phase.Prefill? { assert s'.active[i] == s.active[i]; }
    }
  }

  /** An active request goes, and nobody else moves. */
  lemma RemoveActiveMoves(cfg: Config, s: State, id: RequestId)
    requires SchedulerOk(cfg, Tracked(s, {})) && id in IdSet(s.active)
    ensures var (s', error) := RemoveActive(s, id);
            && error == None && SchedulerOk(cfg, Tracked(s', {id}))
            && s'.queue == s.queue && IdSet(s'.active) == IdSet(s.active) - {id} && s'.coordination == s.coordination
            && (forall x :: x != id ==> (InPrefill(s', x) <==> InPrefill(s, x)))
  {
    hide Coordinated, QueueOk;
    StepKeepsOk(cfg, Tracked(s, {}), RemoveActiveOp(id));
    assert {} + {id} == {id};
    PositionFound(s.active, id, 0);
    DropMoves(s.active, Position(s.active, id).value);
    DropKeepsPrefills(s, RemoveActive(s, id).0, Position(s.active, id).value);
  }

  lemma TerminateMoves(cfg: Config, s: State, id: RequestId, how: Termination)
    requires SchedulerOk(cfg, Tracked(s, {id}))
    ensures var (s', error) := Terminate(s, id, how);
            && error == None && SchedulerOk(cfg, Tracked(s', {}))
            && IdSet(s'.queue) == IdSet(s.queue) && s'.active == s.active
  {
    hide SchedulerOk, Remove, Wake;
    StepKeepsOk(cfg, Tracked(s, {id}), TerminateOp(id, how));
    assert {id} - {id} == {};
    if s.coordination.Some? { WakeKeepsIds(s, Remove(s.coordination.value, id, how)); }
  }

  lemma ReleaseMoves(cfg: Config, s: State, id: RequestId)
    requires SchedulerOk(cfg, Tracked(s, {})) && id in IdSet(s.active)
    requires s.coordination.Some? && RequiresPublication(s.coordination.value, id)
    ensures var (s', error) := ReleasePrefixFlight(s, id);
            && error == None && SchedulerOk(cfg, Tracked(s', {}))
            && IdSet(s'.queue) == IdSet(s.queue) && s'.active == s.active
  {
    hide SchedulerOk, ReleaseAfterPublication, Wake;
    StepKeepsOk(cfg, Tracked(s, {}), ReleaseFlightOp(id));
    WakeKeepsIds(s, ReleaseAfterPublication(s.coordination.value, id));
  }

  ghost predicate InPrefill(s: State, id: RequestId) {
    exists i :: 0 <= i < |s.active| && s.active[i].id == id && s.active[i].phase.Prefill?
  }

  /** Whether an active request may go from its present phase to the reported one. */
  ghost predicate GoesForward(s: State, id: RequestId, phase: GenerationPhase) {
    phase.PrefillPhase? ==> InPrefill(s, id)
  }

  lemma PhaseMoves(cfg: Config, s: State, id: RequestId, phase: GenerationPhase)
    requires SchedulerOk(cfg, Tracked(s, {})) && id in IdSet(s.active)
    ensures var (s', r) := UpdatePhase(s, id, phase);
            && (r.PhaseError? <==> !GoesForward(s, id, phase)) && (r.PhaseError? ==> s' == s)
            && SchedulerOk(cfg, Tracked(s', if phase.FinishedPhase? then {id} else {}))
            && s'.queue == s.queue && s'.coordination == s.coordination
            && IdSet(s'.active) == IdSet(s.active) - (if phase.FinishedPhase? then {id} else {})
            && (r.PhaseOk? && r.mustPublish ==> s.coordination.Some? && RequiresPublication(s.coordination.value, id))
            && (r.PhaseOk? && phase.DecodePhase? && InPrefill(s, id) ==> r.mustPublish == MustPublish(s, id))
            && (r.PhaseOk? && phase.PrefillPhase? ==> !r.mustPublish)
            && (phase.FinishedPhase? ==> r == PhaseOk(false))
            && (forall x :: x != id ==> (InPrefill(s', x) <==> InPrefill(s, x)))
  {
    hide Coordinated, QueueOk;
    PositionFound(s.active, id, 0);
    var k := Position(s.active, id).value;
    assert forall i :: 0 <= i < |s.active| && s.active[i].id == id ==> i == k by { assert IdsDistinct(s.active); }
    if GoesForward(s, id, phase) {
      StepKeepsOk(cfg, Tracked(s, {}), PhaseOp(id, phase));
      assert {} + {id} == {id};
      var s' := UpdatePhase(s, id, phase).0;
      if phase.FinishedPhase? {
        DropMoves(s.active, k);
        DropKeepsPrefills(s, s', k);
      } else {
        assert s'.active == s.active[k := s'.active[k]] && s'.active[k].id == id;
        SetKeepsPrefills(s, s', k);
        assert Ids(s'.active) == Ids(s.active);
        SameIds(s'.active, s.active);
      }
    }
  }

  /** A request that is terminated was taken out of the active list just before; nobody else moves. */
  lemma DepartureMoves(cfg: Config, s: State, id: RequestId, how: Termination)
    requires SchedulerOk(cfg, Tracked(s, {})) && id in IdSet(s.active)
    ensures var (s', error) := Terminate(RemoveActive(s, id).0, id, how);
            && RemoveActive(s, id).1 == None && error == None && SchedulerOk(cfg, Tracked(s', {}))
            && IdSet(s'.queue) == IdSet(s.queue) && IdSet(s'.active) == IdSet(s.active) - {id}
  {
    hide SchedulerOk, RemoveActive, Terminate;
    RemoveActiveMoves(cfg, s, id);
    TerminateMoves(cfg, RemoveActive(s, id).0, id, how);
  }

  // ---- Leadership ------------------------------------------------------------------------------

  /** What happens to one request leaves every other request that does not wait in its role. */
  lemma OthersKeepRole(f: Flights, r: RequestId, how: Termination, x: RequestId)
    requires FlightsOk(f) && x != r && !IsFollower(f, x)
    ensures var f' := Remove(f, r, how).flights;
            RequiresPublication(f', x) == RequiresPublication(f, x) && !IsFollower(f', x)
    ensures var f' := ReleaseAfterPublication(f, r).flights;
            RequiresPublication(f', x) == RequiresPublication(f, x) && !IsFollower(f', x)
  {
    if x in f.flightOf {
      assert Registered(f, x) && FlightOk(f, f.flightOf[x]);
    }
    if r in f.flightOf {
      assert Registered(f, r) && FlightOk(f, f.flightOf[r]);
    }
    forall g | g in f.flights ensures FlightOk(f, g) { }
    if how == Aborted && IsFollower(f, r) { WithoutMembers(f.flights[f.flightOf[r]].followers, r); }
  }

  /** An admitted request that has not started: it does not wait, is still in prefill, and leads its
      flight exactly when `must`. */
  ghost predicate Ready(s: State, x: RequestId, must: bool) {
    !Waits(s, x) && MustPublish(s, x) == must && InPrefill(s, x)
  }

  lemma DepartureKeepsReady(cfg: Config, s: State, id: RequestId, how: Termination, x: RequestId, must: bool)
    requires SchedulerOk(cfg, Tracked(s, {})) && id in IdSet(s.active) && x != id && Ready(s, x, must)
    ensures Ready(Terminate(RemoveActive(s, id).0, id, how).0, x, must)
  {
    hide RequiresPublication, IsFollower, FlightsOk, Remove, InPrefill;
    RemoveActiveMoves(cfg, s, id);
    if s.coordination.Some? { OthersKeepRole(s.coordination.value, id, how, x); }
    SameActive(RemoveActive(s, id).0, Terminate(RemoveActive(s, id).0, id, how).0);
  }

  lemma SameActive(s: State, s': State)
    requires s'.active == s.active
    ensures forall x :: InPrefill(s', x) <==> InPrefill(s, x)
  {
  }

  lemma ReleaseKeepsReady(cfg: Config, s: State, id: RequestId, x: RequestId, must: bool)
    requires SchedulerOk(cfg, Tracked(s, {})) && x != id && Ready(s, x, must)
    ensures Ready(ReleasePrefixFlight(s, id).0, x, must)
  {
    hide RequiresPublication, IsFollower, FlightsOk, ReleaseAfterPublication, InPrefill;
    if s.coordination.Some? { OthersKeepRole(s.coordination.value, id, Aborted, x); }
    SameActive(s, ReleasePrefixFlight(s, id).0);
  }

  /** Every admitted request is ready to start. */
  lemma AdmittedReady(cfg: Config, s: State, x: RequestId)
    requires SchedulerOk(cfg, Tracked(s, {})) && x in Admit(cfg, s).1
    ensures Ready(Admit(cfg, s).0, x, MustPublish(s, x))
  {
    hide FlightsOk, Admit, LongestFitting, Unblocked, Blocked, PolicyOrder, SumPages;
    AdmitMoves(cfg, s);
    var n := AdmitExact(cfg, s);
    var order := PolicyOrder(cfg.policy, s.queue);
    var moved := Unblocked(order)[..n];
    var (s', ids) := Admit(cfg, s);
    var i :| 0 <= i < |ids| && ids[i] == x;
    var r := moved[i];
    assert r in Unblocked(order);
    FiltersPartition(order);
    OrderPermutes(cfg.policy, s.queue);
    assert r in multiset(order) && r in multiset(s.queue);
    var k :| 0 <= k < |s.queue| && s.queue[k] == r;
    assert s'.active[|s.active| + i] == r && r.id == x && r.phase.Prefill? && !r.blocked;
    assert s.coordination.Some? ==> !IsFollower(s.coordination.value, s.queue[k].id);
  }

  // ---- How the manager's transitions move ids ----------------------------------------------------

  lemma Accepts(cfg: Config, s: State, stages: Stages, id: RequestId, input: seq<Token>, maxNew: nat, cached: nat)
    requires Placed(cfg, s, stages, {}) && id !in stages && input != [] && maxNew > 0
    requires CeilDiv(CachedDemand(|input|, maxNew), cfg.pageTokens) <= cfg.PageCapacity()
    ensures var (s', error) := Enqueue(cfg, s, id, input, maxNew, cached);
            error == None && Placed(cfg, s', stages[id := Queued], {}) && CachedIn(stages[id := Queued]) == CachedIn(stages)
  {
    assert cfg.pageTokens > 0 && IdSet(s.queue) == QueuedIn(stages) && IdSet(s.active) == StartedIn(stages);
    hide SchedulerOk, Enqueue;
    assert !InPlay(Tracked(s, {}), id) by { assert id !in IdSet(s.queue) && id !in IdSet(s.active); }
    EnqueueMoves(cfg, s, id, input, maxNew, cached);
    assert QueuedIn(stages[id := Queued]) == QueuedIn(stages) + {id};
    assert StartedIn(stages[id := Queued]) == StartedIn(stages);
  }

  lemma Admits(cfg: Config, s: State, stages: Stages)
    requires Placed(cfg, s, stages, {})
    ensures var (s', ids) := Admit(cfg, s);
            Distinct(ids) && Placed(cfg, s', stages, Elements(ids))
  {
    hide SchedulerOk, Admit;
    AdmitMoves(cfg, s);
  }

  lemma Starts(cfg: Config, s: State, stages: Stages, starting: set<RequestId>, id: RequestId, stage: Stage)
    requires Placed(cfg, s, stages, starting) && id in starting && stage != Queued
    ensures Placed(cfg, s, stages[id := stage], starting - {id})
    ensures CachedIn(stages[id := stage]) == CachedIn(stages) + if stage == FailedToStart then {} else {id}
  {
    hide SchedulerOk;
    assert QueuedIn(stages[id := stage]) == QueuedIn(stages) - {id};
    assert StartedIn(stages[id := stage]) == StartedIn(stages) + {id};
  }

  lemma StaysPlaced(cfg: Config, s: State, s': State, stages: Stages, starting: set<RequestId>)
    requires Placed(cfg, s, stages, starting) && SchedulerOk(cfg, Tracked(s', {}))
    requires IdSet(s'.queue) == IdSet(s.queue) && IdSet(s'.active) == IdSet(s.active)
    ensures Placed(cfg, s', stages, starting)
  {
  }

  lemma NothingPlaced(cfg: Config, coordination: Option<Flights>)
    requires cfg.pageTokens > 0 && cfg.maxActive > 0
    requires coordination.Some? ==> Empty(coordination.value)
    ensures Placed(cfg, State([], [], None, coordination), map[], {})
    ensures Accounted(multiset{}, multiset{}, map[]) && CachedIn(map[]) == {}
  {
    hide SchedulerOk, Empty;
    FreshSchedulerOk(cfg, coordination);
    assert IdSet([]) == {} && QueuedIn(map[]) == {} && StartedIn(map[]) == {};
  }

  /** Stages may change among the started ones. */
  lemma Restaged(cfg: Config, s: State, stages: Stages, stages': Stages)
    requires Placed(cfg, s, stages, {}) && QueuedIn(stages') == QueuedIn(stages) && StartedIn(stages') == StartedIn(stages)
    ensures Placed(cfg, s, stages', {})
  {
  }

  lemma Departs(cfg: Config, s: State, s': State, stages: Stages, starting: set<RequestId>, id: RequestId)
    requires Placed(cfg, s, stages, starting) && id in StartedIn(stages) && SchedulerOk(cfg, Tracked(s', {}))
    requires IdSet(s'.queue) == IdSet(s.queue) && IdSet(s'.active) == IdSet(s.active) - {id}
    ensures Placed(cfg, s', stages - {id}, starting)
  {
    hide SchedulerOk;
    assert QueuedIn(stages - {id}) == QueuedIn(stages);
    assert StartedIn(stages - {id}) == StartedIn(stages) - {id};
  }

  /** The scheduler has already let go of a finished request that the manager still has. */
  ghost predicate Leaving(cfg: Config, s: State, stages: Stages, id: RequestId) {
    && SchedulerOk(cfg, Tracked(s, {id})) && id in stages && stages[id] == Executing
    && IdSet(s.queue) == QueuedIn(stages) && IdSet(s.active) == StartedIn(stages) - {id}
  }

  lemma Leaves(cfg: Config, s: State, stages: Stages, id: RequestId, how: Termination)
    requires Leaving(cfg, s, stages, id)
    ensures var (s', error) := Terminate(s, id, how);
            error == None && Placed(cfg, s', stages - {id}, {})
    ensures id in CachedIn(stages) && CachedIn(stages - {id}) == CachedIn(stages) - {id}
  {
    hide SchedulerOk, Terminate;
    TerminateMoves(cfg, s, id, how);
    assert QueuedIn(stages - {id}) == QueuedIn(stages);
    assert StartedIn(stages - {id}) == StartedIn(stages) - {id};
  }

  lemma Reported(accepted: multiset<RequestId>, reported: multiset<RequestId>, stages: Stages, id: RequestId)
    requires Accounted(accepted, reported, stages) && id in stages
    ensures Accounted(accepted, reported + multiset{id}, stages - {id})
  {
    assert stages.Keys == (stages - {id}).Keys + {id};
    assert multiset(stages.Keys) == multiset((stages - {id}).Keys) + multiset{id};
  }

  lemma AcceptedOne(accepted: multiset<RequestId>, reported: multiset<RequestId>, stages: Stages, id: RequestId, stage: Stage)
    requires Accounted(accepted, reported, stages) && id !in stages
    ensures Accounted(accepted + multiset{id}, reported, stages[id := stage])
  {
    assert stages[id := stage].Keys == stages.Keys + {id};
    assert multiset(stages[id := stage].Keys) == multiset(stages.Keys) + multiset{id};
  }
}
