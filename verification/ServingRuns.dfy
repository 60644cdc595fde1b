/** The scheduler and both models' caches together: over every run of submissions, admissions, cache
    operations and departures, no append by an admitted request fails for lack of pages. */
module ServingRuns {
  import opened Common
  import opened Arithmetic
  import opened PagePool
  import opened PagedCacheSpec
  import opened CacheInvariant
  import opened CacheAppend
  import CacheRelease
  import CacheRuns
  import opened PrefixCacheFlight
  import opened SchedulerSpec
  import opened SchedulerRuns
  import opened NoPreemption
  import opened CacheService
  import opened RequestLimits

  /** `bounds` gives each request the number of tokens it may ever have cached. */
  datatype System = System(t: Tracked, target: Cache, draft: Option<Cache>, bounds: map<RequestId, nat>)

  ghost predicate SystemOk(cfg: Config, g: System) {
    && SchedulerOk(cfg, g.t) && cfg.maxActive <= MAX_READERS
    && ReservationsMatch(cfg, g.t.s.queue, g.bounds) && ReservationsMatch(cfg, g.t.s.active, g.bounds)
    && CacheInService(cfg, g.target, g.t.s.active, g.bounds)
    && (g.draft.Some? ==> CacheInService(cfg, g.draft.value, g.t.s.active, g.bounds))
  }

  datatype SystemOp =
    | Submit(id: RequestId, input: seq<Token>, maxNew: nat, cached: nat)
    | AdmitAndStart
    | OnTarget(id: RequestId, op: CacheOp)
    | OnDraft(id: RequestId, op: CacheOp)
    | Progress(id: RequestId, phase: GenerationPhase)
    | ReleaseFlight(id: RequestId)
    | Leave(id: RequestId, how: Termination)

  /** Requests are normalized, cache operations keep to the executor's discipline, and a request leaves
      the scheduler and both caches in one step of the worker. */
  ghost predicate OpAllowed(cfg: Config, g: System, op: SystemOp) {
    match op
    case Submit(id, input, maxNew, cached) => Allowed(cfg, g.t, EnqueueOp(id, input, maxNew, cached))
    case AdmitAndStart => true
    case OnTarget(id, c) => CacheOpAllowed(g.target, id, c, g.bounds)
    case OnDraft(id, c) => g.draft.Some? && CacheOpAllowed(g.draft.value, id, c, g.bounds)
    case Progress(id, phase) => !phase.FinishedPhase? && Allowed(cfg, g.t, PhaseOp(id, phase))
    case ReleaseFlight(id) => Allowed(cfg, g.t, ReleaseFlightOp(id))
    case Leave(id, _) => Holds(g.t.s.active, id)
  }

  ghost function OnCache(c: Cache, id: RequestId, op: CacheOp, bounds: map<RequestId, nat>): Cache
    requires CacheOk(c) && CacheOpAllowed(c, id, op, bounds)
  {
    Applied(c, id, CacheStepOf(c, id, op, bounds))
  }

  ghost function Gone(c: Cache, id: RequestId): Cache { if id in c.tables then CacheRelease.Removed(c, id) else c }

  ghost predicate CachesOk(g: System) { CacheOk(g.target) && (g.draft.Some? ==> CacheOk(g.draft.value)) }

  ghost function Next(cfg: Config, g: System, op: SystemOp): System
    requires cfg.pageTokens > 0 && OpAllowed(cfg, g, op) && CachesOk(g)
  {
    match op
    case Submit(id, input, maxNew, cached) =>
      g.(t := SchedulerRuns.After(cfg, g.t, EnqueueOp(id, input, maxNew, cached)).t, bounds := g.bounds[id := CachedDemand(|input|, maxNew)])
    case AdmitAndStart =>
      var (s, ids) := Admit(cfg, g.t.s);
      System(Tracked(s, g.t.departed), StartAll(g.target, ids),
             if g.draft.Some? then Some(StartAll(g.draft.value, ids)) else None, g.bounds)
    case OnTarget(id, c) => g.(target := OnCache(g.target, id, c, g.bounds))
    case OnDraft(id, c) => g.(draft := Some(OnCache(g.draft.value, id, c, g.bounds)))
    case Progress(id, phase) => g.(t := SchedulerRuns.After(cfg, g.t, PhaseOp(id, phase)).t)
    case ReleaseFlight(id) => g.(t := SchedulerRuns.After(cfg, g.t, ReleaseFlightOp(id)).t)
    case Leave(id, how) =>
      var left := RemoveActive(g.t.s, id).0;
      System(Tracked(Terminate(left, id, how).0, g.t.departed), Gone(g.target, id),
             if g.draft.Some? then Some(Gone(g.draft.value, id)) else None, g.bounds)
  }

  // ---- Steps keep the scheduler and the reservations in order ------------------------------------

  /** The scheduler's half of `SystemOk`. */
  ghost predicate SchedulingOk(cfg: Config, t: Tracked, bounds: map<RequestId, nat>) {
    && SchedulerOk(cfg, t) && cfg.maxActive <= MAX_READERS
    && ReservationsMatch(cfg, t.s.queue, bounds) && ReservationsMatch(cfg, t.s.active, bounds)
  }

  lemma SystemParts(cfg: Config, g: System)
    requires SystemOk(cfg, g)
    ensures SchedulingOk(cfg, g.t, g.bounds) && cfg.pageTokens > 0 && CachesOk(g)
    ensures CacheInService(cfg, g.target, g.t.s.active, g.bounds)
    ensures g.draft.Some? ==> CacheInService(cfg, g.draft.value, g.t.s.active, g.bounds)
  {
  }

  lemma SystemFromParts(cfg: Config, g: System)
    requires SchedulingOk(cfg, g.t, g.bounds) && cfg.pageTokens > 0
    requires CacheInService(cfg, g.target, g.t.s.active, g.bounds)
    requires g.draft.Some? ==> CacheInService(cfg, g.draft.value, g.t.s.active, g.bounds)
    ensures SystemOk(cfg, g)
  {
    hide SchedulerOk, CacheInService, ReservationsMatch;
  }

  lemma SchedulerFacts(cfg: Config, t: Tracked)
    requires SchedulerOk(cfg, t)
    ensures cfg.pageTokens > 0 && IdsDistinct(t.s.queue) && IdsDistinct(t.s.active) && ActiveDistinct(t.s.active)
    ensures SumPages(t.s.active) <= cfg.PageCapacity() && |t.s.active| <= cfg.maxActive
  {
  }

  lemma SubmitScheduling(cfg: Config, t: Tracked, bounds: map<RequestId, nat>, id: RequestId, input: seq<Token>, maxNew: nat, cached: nat)
    requires SchedulingOk(cfg, t, bounds) && cfg.pageTokens > 0 && Allowed(cfg, t, EnqueueOp(id, input, maxNew, cached))
    ensures var t' := SchedulerRuns.After(cfg, t, EnqueueOp(id, input, maxNew, cached)).t;
            SchedulingOk(cfg, t', bounds[id := CachedDemand(|input|, maxNew)]) && t'.s.active == t.s.active
  {
    StepKeepsOk(cfg, t, EnqueueOp(id, input, maxNew, cached));
    NotHeld(t, id);
    hide SchedulerOk, Add;
  }

  lemma NotHeld(t: Tracked, id: RequestId)
    requires !InPlay(t, id)
    ensures forall i :: 0 <= i < |t.s.active| ==> t.s.active[i].id != id
    ensures forall i :: 0 <= i < |t.s.queue| ==> t.s.queue[i].id != id
    ensures !Holds(t.s.active, id)
  {
  }

  lemma NewBoundKeepsService(cfg: Config, c: Cache, active: seq<Request>, bounds: map<RequestId, nat>, id: RequestId, bound: nat)
    requires cfg.pageTokens > 0 && CacheInService(cfg, c, active, bounds) && !Holds(active, id)
    ensures CacheInService(cfg, c, active, bounds[id := bound])
  {
    hide Inv, Holds;
  }

  lemma AdmitScheduling(cfg: Config, t: Tracked, bounds: map<RequestId, nat>) returns (more: seq<Request>)
    requires SchedulingOk(cfg, t, bounds) && cfg.pageTokens > 0
    ensures var (s', ids) := Admit(cfg, t.s);
            && SchedulingOk(cfg, Tracked(s', t.departed), bounds)
            && s'.active == t.s.active + more && ids == Ids(more)
    ensures |t.s.active| + |more| <= MAX_READERS && IdsDistinct(t.s.active + more)
    ensures forall i :: 0 <= i < |more| ==> more[i].id in bounds
  {
    AdmitKeepsOk(cfg, t);
    var s := t.s;
    var (s', ids) := Admit(cfg, s);
    SchedulerFacts(cfg, Tracked(s', t.departed));
    hide SchedulerOk, Admit, Unblocked, Blocked, PolicyOrder, LongestFitting, SumPages, IdsDistinct, ActiveDistinct;
    var n := AdmitExact(cfg, s);
    more := Unblocked(PolicyOrder(cfg.policy, s.queue))[..n];
    AdmittedMatch(cfg, s, s', more, bounds);
  }

  lemma AdmittedMatch(cfg: Config, s: State, s': State, more: seq<Request>, bounds: map<RequestId, nat>)
    requires cfg.pageTokens > 0 && ReservationsMatch(cfg, s.queue, bounds) && ReservationsMatch(cfg, s.active, bounds)
    requires s'.active == s.active + more && multiset(s'.queue) + multiset(s'.active) == multiset(s.queue) + multiset(s.active)
    ensures ReservationsMatch(cfg, s'.queue, bounds) && ReservationsMatch(cfg, s'.active, bounds)
    ensures forall i :: 0 <= i < |more| ==> more[i].id in bounds
  {
    assert multiset(s'.active) == multiset(s.active) + multiset(more);
    Cancel(multiset(s'.queue), multiset(s.active), multiset(more), multiset(s.queue));
    forall r | r in s'.queue || r in more ensures r in s.queue { assert r in multiset(s'.queue) + multiset(more); }
    forall i | 0 <= i < |s'.queue| ensures s'.queue[i].id in bounds && s'.queue[i].maxPages == CeilDiv(bounds[s'.queue[i].id], cfg.pageTokens) {
      assert s'.queue[i] in s'.queue && s'.queue[i] in s.queue;
    }
    forall i | 0 <= i < |more| ensures more[i].id in bounds && more[i].maxPages == CeilDiv(bounds[more[i].id], cfg.pageTokens) {
      assert more[i] in more && more[i] in s.queue;
    }
  }

  /** The same requests with the same reservations, place by place. */
  ghost predicate SameRequests(a: seq<Request>, b: seq<Request>) {
    |a| == |b| && forall i :: 0 <= i < |a| ==> a[i].id == b[i].id && a[i].maxPages == b[i].maxPages
  }

  lemma SameRequestsMatch(cfg: Config, a: seq<Request>, b: seq<Request>, bounds: map<RequestId, nat>)
    requires cfg.pageTokens > 0 && ReservationsMatch(cfg, a, bounds) && SameRequests(a, b)
    ensures ReservationsMatch(cfg, b, bounds)
  {
  }

  lemma SameRequestsInService(cfg: Config, c: Cache, a: seq<Request>, b: seq<Request>, bounds: map<RequestId, nat>)
    requires cfg.pageTokens > 0 && CacheInService(cfg, c, a, bounds) && SameRequests(a, b)
    ensures CacheInService(cfg, c, b, bounds)
  {
    hide Inv;
    forall x ensures Holds(b, x) <==> Holds(a, x) {
      if i :| 0 <= i < |a| && a[i].id == x { assert b[i].id == x; }
      if i :| 0 <= i < |b| && b[i].id == x { assert a[i].id == x; }
    }
  }

  lemma ProgressScheduling(cfg: Config, t: Tracked, bounds: map<RequestId, nat>, id: RequestId, phase: GenerationPhase)
    requires SchedulingOk(cfg, t, bounds) && cfg.pageTokens > 0 && !phase.FinishedPhase? && Allowed(cfg, t, PhaseOp(id, phase))
    ensures var t' := SchedulerRuns.After(cfg, t, PhaseOp(id, phase)).t;
            SchedulingOk(cfg, t', bounds) && SameRequests(t.s.active, t'.s.active)
  {
    StepKeepsOk(cfg, t, PhaseOp(id, phase));
    PhaseKeepsRequests(cfg, t, id, phase);
    hide SchedulerOk, UpdatePhase, Allowed, ReservationsMatch;
    SameRequestsMatch(cfg, t.s.active, SchedulerRuns.After(cfg, t, PhaseOp(id, phase)).t.s.active, bounds);
  }

  lemma PhaseKeepsRequests(cfg: Config, t: Tracked, id: RequestId, phase: GenerationPhase)
    requires cfg.pageTokens > 0 && !phase.FinishedPhase? && Allowed(cfg, t, PhaseOp(id, phase))
    ensures var t' := SchedulerRuns.After(cfg, t, PhaseOp(id, phase)).t;
            SameRequests(t.s.active, t'.s.active) && t'.s.queue == t.s.queue && t'.departed == t.departed
  {
    PositionFound(t.s.active, id, 0);
  }

  lemma ReleaseFlightScheduling(cfg: Config, t: Tracked, bounds: map<RequestId, nat>, id: RequestId)
    requires SchedulingOk(cfg, t, bounds) && cfg.pageTokens > 0 && Allowed(cfg, t, ReleaseFlightOp(id))
    ensures var t' := SchedulerRuns.After(cfg, t, ReleaseFlightOp(id)).t;
            SchedulingOk(cfg, t', bounds) && t'.s.active == t.s.active
  {
    StepKeepsOk(cfg, t, ReleaseFlightOp(id));
    hide SchedulerOk, Wake, ReleaseAfterPublication, ReservationsMatch, SameRequests;
    if t.s.coordination.Some? {
      var step := ReleaseAfterPublication(t.s.coordination.value, id);
      WakeKeepsRequests(t.s, step);
      SameRequestsMatch(cfg, t.s.queue, Wake(t.s, step).0.queue, bounds);
    }
  }

  lemma WakeKeepsRequests(s: State, step: FlightStep)
    ensures SameRequests(s.queue, Wake(s, step).0.queue) && Wake(s, step).0.active == s.active
  {
    if step.runnable.Done? { UnblockKeepsRequests(s.queue, step.runnable.value); }
  }

  lemma {:induction false} UnblockKeepsRequests(queue: seq<Request>, ids: seq<RequestId>)
    ensures SameRequests(queue, Unblock(queue, ids).0)
    decreases |ids|
  {
    if ids != [] && Position(queue, ids[0]).Some? {
      PositionFound(queue, ids[0], 0);
      var k := Position(queue, ids[0]).value;
      if queue[k].blocked { UnblockKeepsRequests(queue[k := queue[k].(blocked := false)], ids[1..]); }
    }
  }

  lemma LeaveScheduling(cfg: Config, t: Tracked, bounds: map<RequestId, nat>, id: RequestId, how: Termination) returns (k: nat)
    requires SchedulingOk(cfg, t, bounds) && cfg.pageTokens > 0 && Holds(t.s.active, id)
    ensures k < |t.s.active| && t.s.active[k].id == id && IdsDistinct(t.s.active)
    ensures var t' := Tracked(Terminate(RemoveActive(t.s, id).0, id, how).0, t.departed);
            SchedulingOk(cfg, t', bounds) && t'.s.active == Drop(t.s.active, k)
  {
    PositionFound(t.s.active, id, 0);
    k := Position(t.s.active, id).value;
    SchedulerFacts(cfg, t);
    hide SchedulerOk, Wake, Remove, ReservationsMatch, SameRequests, IdsDistinct;
    RemoveActiveKeepsOk(cfg, t, id);
    var left := Tracked(RemoveActive(t.s, id).0, t.departed + {id});
    assert left.s.active == Drop(t.s.active, k) && left.s.queue == t.s.queue;
    TerminateKeepsOk(cfg, left, id, how);
    assert t.departed + {id} - {id} == t.departed by { ActiveNotDeparted(cfg, t, id); }
    DroppedMatch(cfg, t.s.active, k, bounds);
    if left.s.coordination.Some? {
      var step := Remove(left.s.coordination.value, id, how);
      WakeKeepsRequests(left.s, step);
      SameRequestsMatch(cfg, t.s.queue, Wake(left.s, step).0.queue, bounds);
    }
  }

  lemma ActiveNotDeparted(cfg: Config, t: Tracked, id: RequestId)
    requires SchedulerOk(cfg, t) && Holds(t.s.active, id)
    ensures id !in t.departed
  {
  }

  lemma DroppedMatch(cfg: Config, active: seq<Request>, k: nat, bounds: map<RequestId, nat>)
    requires cfg.pageTokens > 0 && ReservationsMatch(cfg, active, bounds) && k < |active|
    ensures ReservationsMatch(cfg, Drop(active, k), bounds)
  {
    DropDistinct(active, k);
  }

  // ---- Steps keep the system in order ----------------------------------------------------------

  lemma SchedulerStepKeepsOk(cfg: Config, g: System, op: SystemOp)
    requires SystemOk(cfg, g) && OpAllowed(cfg, g, op) && cfg.pageTokens > 0 && CachesOk(g)
    requires op.Submit? || op.Progress? || op.ReleaseFlight?
    ensures SystemOk(cfg, Next(cfg, g, op))
  {
    SystemParts(cfg, g);
    hide SystemOk, SchedulingOk, CacheInService, CacheOk, After, SameRequests, InPlay, CacheOpAllowed;
    var g' := Next(cfg, g, op);
    match op {
      case Submit(id, input, maxNew, cached) =>
        SubmitScheduling(cfg, g.t, g.bounds, id, input, maxNew, cached);
        NotHeld(g.t, id);
        NewBoundKeepsService(cfg, g.target, g.t.s.active, g.bounds, id, CachedDemand(|input|, maxNew));
        if g.draft.Some? { NewBoundKeepsService(cfg, g.draft.value, g.t.s.active, g.bounds, id, CachedDemand(|input|, maxNew)); }
      case Progress(id, phase) =>
        ProgressScheduling(cfg, g.t, g.bounds, id, phase);
        SameRequestsInService(cfg, g.target, g.t.s.active, g'.t.s.active, g.bounds);
        if g.draft.Some? { SameRequestsInService(cfg, g.draft.value, g.t.s.active, g'.t.s.active, g.bounds); }
      case ReleaseFlight(id) =>
        ReleaseFlightScheduling(cfg, g.t, g.bounds, id);
    }
    SystemFromParts(cfg, g');
  }

  lemma AdmitAndStartKeepsOk(cfg: Config, g: System)
    requires SystemOk(cfg, g) && cfg.pageTokens > 0 && CachesOk(g)
    ensures SystemOk(cfg, Next(cfg, g, AdmitAndStart))
  {
    SystemParts(cfg, g);
    hide SystemOk, SchedulingOk, CacheInService, CacheOk, Admit, StartAll, IdsDistinct;
    var more := AdmitScheduling(cfg, g.t, g.bounds);
    StartAllInService(cfg, g.target, g.t.s.active, more, g.bounds);
    if g.draft.Some? { StartAllInService(cfg, g.draft.value, g.t.s.active, more, g.bounds); }
    SystemFromParts(cfg, Next(cfg, g, AdmitAndStart));
  }

  lemma LeaveSystemKeepsOk(cfg: Config, g: System, id: RequestId, how: Termination)
    requires SystemOk(cfg, g) && OpAllowed(cfg, g, Leave(id, how)) && cfg.pageTokens > 0 && CachesOk(g)
    ensures SystemOk(cfg, Next(cfg, g, Leave(id, how)))
  {
    SystemParts(cfg, g);
    hide SystemOk, SchedulingOk, CacheInService, CacheOk, Holds, IdsDistinct, Drop, Terminate, RemoveActive, CacheRelease.Removed;
    var k := LeaveScheduling(cfg, g.t, g.bounds, id, how);
    RemovedInService(cfg, g.target, g.t.s.active, k, g.bounds);
    if g.draft.Some? { RemovedInService(cfg, g.draft.value, g.t.s.active, k, g.bounds); }
    SystemFromParts(cfg, Next(cfg, g, Leave(id, how)));
  }

  lemma SchedulingFacts(cfg: Config, t: Tracked, bounds: map<RequestId, nat>)
    requires SchedulingOk(cfg, t, bounds)
    ensures cfg.pageTokens > 0 && ActiveDistinct(t.s.active) && ReservationsMatch(cfg, t.s.active, bounds)
    ensures SumPages(t.s.active) <= cfg.PageCapacity()
  {
    SchedulerFacts(cfg, t);
  }

  lemma CacheStepKeepsOk(cfg: Config, g: System, op: SystemOp)
    requires SystemOk(cfg, g) && OpAllowed(cfg, g, op) && cfg.pageTokens > 0 && CachesOk(g) && (op.OnTarget? || op.OnDraft?)
    ensures SystemOk(cfg, Next(cfg, g, op))
    ensures AppendSucceeds(g, op)
  {
    SystemParts(cfg, g);
    SchedulingFacts(cfg, g.t, g.bounds);
    hide SystemOk, SchedulingOk, CacheInService, CacheOk, CacheOpAllowed, CacheStepOf, ActiveDistinct, ReservationsMatch, SumPages;
    if op.OnTarget? {
      CacheOpKeepsService(cfg, g.target, g.t.s.active, op.id, op.op, g.bounds);
    } else {
      CacheOpKeepsService(cfg, g.draft.value, g.t.s.active, op.id, op.op, g.bounds);
    }
    SystemFromParts(cfg, Next(cfg, g, op));
  }

  /** If the operation is an append to one of the caches, it succeeds. */
  ghost predicate AppendSucceeds(g: System, op: SystemOp)
    requires CachesOk(g)
  {
    match op
    case OnTarget(id, c) =>
      c.AppendC? && CacheOpAllowed(g.target, id, c, g.bounds) ==> CacheStepOf(g.target, id, c, g.bounds).result.Ok?
    case OnDraft(id, c) =>
      g.draft.Some? && c.AppendC? && CacheOpAllowed(g.draft.value, id, c, g.bounds) ==>
        CacheStepOf(g.draft.value, id, c, g.bounds).result.Ok?
    case _ => true
  }

  /** Every step the worker may take keeps the system in order, and every append it performs succeeds. */
  lemma SystemStepKeepsOk(cfg: Config, g: System, op: SystemOp)
    requires SystemOk(cfg, g) && OpAllowed(cfg, g, op)
    ensures cfg.pageTokens > 0 && CachesOk(g) && SystemOk(cfg, Next(cfg, g, op)) && AppendSucceeds(g, op)
  {
    SystemParts(cfg, g);
    hide SystemOk, Next, CacheOk, CacheStepOf, OpAllowed, SchedulingOk, CacheInService;
    match op
    case OnTarget(_, _) => CacheStepKeepsOk(cfg, g, op);
    case OnDraft(_, _) => CacheStepKeepsOk(cfg, g, op);
    case AdmitAndStart => AdmitAndStartKeepsOk(cfg, g);
    case Leave(id, how) => LeaveSystemKeepsOk(cfg, g, id, how);
    case Submit(_, _, _, _) => SchedulerStepKeepsOk(cfg, g, op);
    case Progress(_, _) => SchedulerStepKeepsOk(cfg, g, op);
    case ReleaseFlight(_) => SchedulerStepKeepsOk(cfg, g, op);
  }

  /** The scheduler's part of a system step. */
  function SchedulerOps(op: SystemOp): seq<SchedulerOp> {
    match op
    case Submit(id, input, maxNew, cached) => [EnqueueOp(id, input, maxNew, cached)]
    case AdmitAndStart => [AdmitOp]
    case Progress(id, phase) => [PhaseOp(id, phase)]
    case ReleaseFlight(id) => [ReleaseFlightOp(id)]
    case Leave(id, how) => [RemoveActiveOp(id), TerminateOp(id, how)]
    case _ => []
  }

  /** The scheduler goes from one state to the other by these operations, each of them allowed. */
  ghost predicate Reaches(cfg: Config, t: Tracked, ops: seq<SchedulerOp>, t': Tracked)
    decreases |ops|
  {
    if ops == [] then t' == t
    else cfg.pageTokens > 0 && Allowed(cfg, t, ops[0]) && Reaches(cfg, SchedulerRuns.After(cfg, t, ops[0]).t, ops[1..], t')
  }

  /** What the system does to the scheduler is a run of the scheduler, so that whatever holds of those runs
      holds of the system; a cache operation leaves it alone. */
  lemma SystemRunsScheduler(cfg: Config, g: System, op: SystemOp)
    requires SystemOk(cfg, g) && OpAllowed(cfg, g, op)
    ensures cfg.pageTokens > 0 && CachesOk(g) && Reaches(cfg, g.t, SchedulerOps(op), Next(cfg, g, op).t)
  {
    SystemParts(cfg, g);
    hide SystemOk, CachesOk, CacheInService, CacheOpAllowed, StartAll, Gone, OnCache, SchedulerRuns.After, SchedulerRuns.Allowed, Reaches;
    match op
    case Leave(id, how) => LeaveRunsScheduler(cfg, g.t, id, how);
    case AdmitAndStart => AdmitRunsScheduler(cfg, g.t);
    case OnTarget(_, _) => NoneRunsScheduler(cfg, g.t);
    case OnDraft(_, _) => NoneRunsScheduler(cfg, g.t);
    case _ => OneRunsScheduler(cfg, g.t, SchedulerOps(op)[0]);
  }

  lemma NoneRunsScheduler(cfg: Config, t: Tracked)
    ensures Reaches(cfg, t, [], t)
  {
  }

  lemma OneRunsScheduler(cfg: Config, t: Tracked, op: SchedulerOp)
    requires cfg.pageTokens > 0 && Allowed(cfg, t, op)
    ensures Reaches(cfg, t, [op], SchedulerRuns.After(cfg, t, op).t)
  {
    var t' := SchedulerRuns.After(cfg, t, op).t;
    NoneRunsScheduler(cfg, t');
    hide SchedulerRuns.After, SchedulerRuns.Allowed;
    assert [op][1..] == [] && [op][0] == op;
  }

  lemma AdmitRunsScheduler(cfg: Config, t: Tracked)
    requires cfg.pageTokens > 0
    ensures Reaches(cfg, t, [AdmitOp], Tracked(Admit(cfg, t.s).0, t.departed))
  {
    hide Admit;
    assert [AdmitOp][1..] == [];
  }

  lemma LeaveRunsScheduler(cfg: Config, t: Tracked, id: RequestId, how: Termination)
    requires cfg.pageTokens > 0 && SchedulerOk(cfg, t) && Holds(t.s.active, id)
    ensures Reaches(cfg, t, [RemoveActiveOp(id), TerminateOp(id, how)], Tracked(Terminate(RemoveActive(t.s, id).0, id, how).0, t.departed))
  {
    hide Terminate, RemoveActive, Coordinated, QueueOk;
    var ops := [RemoveActiveOp(id), TerminateOp(id, how)];
    assert ops[1..] == [TerminateOp(id, how)];
    var removed := SchedulerRuns.After(cfg, t, RemoveActiveOp(id)).t;
    OneRunsScheduler(cfg, removed, TerminateOp(id, how));
    assert t.departed + {id} - {id} == t.departed;
  }

  ghost predicate IsServingRun(cfg: Config, states: seq<System>, ops: seq<SystemOp>) {
    && cfg.pageTokens > 0 && |states| == |ops| + 1 && forall i :: 0 <= i < |ops| ==> ServingStep(cfg, states, ops, i)
  }

  ghost predicate ServingStep(cfg: Config, states: seq<System>, ops: seq<SystemOp>, i: nat)
    requires cfg.pageTokens > 0 && |states| == |ops| + 1 && i < |ops|
  {
    OpAllowed(cfg, states[i], ops[i]) && (CachesOk(states[i]) ==> states[i + 1] == Next(cfg, states[i], ops[i]))
  }

  /** No preemption: in every run, at every step, reservations fit the page capacity, the scheduler and
      both caches agree on who is active, and every append of an admitted request, in either cache,
      finds its pages. */
  lemma {:induction false} NoPreemptionInRuns(cfg: Config, states: seq<System>, ops: seq<SystemOp>, n: nat)
    requires IsServingRun(cfg, states, ops) && SystemOk(cfg, states[0]) && n <= |ops|
    ensures SystemOk(cfg, states[n]) && CachesOk(states[n])
    ensures n < |ops| ==> AppendSucceeds(states[n], ops[n])
    decreases n
  {
    hide SystemOk, OpAllowed, Next, CachesOk, AppendSucceeds;
    if n > 0 {
      NoPreemptionInRuns(cfg, states, ops, n - 1);
      assert ServingStep(cfg, states, ops, n - 1);
      SystemStepKeepsOk(cfg, states[n - 1], ops[n - 1]);
    }
    SystemParts(cfg, states[n]);
    if n < |ops| {
      assert ServingStep(cfg, states, ops, n);
      SystemStepKeepsOk(cfg, states[n], ops[n]);
    }
  }

  // ---- The beginning --------------------------------------------------------------------------

  /** A paged cache's token capacity: whole pages per layer. */
  function TokenCapacity(pageCount: nat, layerCount: nat, pageTokens: nat): nat
    requires layerCount > 0
  {
    Div(pageCount, layerCount) * pageTokens
  }

  /** A model's paged cache: how many layers and pages it has. */
  datatype Layout = Layout(layers: nat, pages: nat, caching: bool)

  /** A scheduler set up from the smaller of the two caches' geometries starts in order. */
  lemma FreshSystemOk(cfg: Config, target: Layout, draft: Option<Layout>, filler: KvEntry, coordination: Option<Flights>)
    requires cfg.pageTokens > 0 && 0 < cfg.maxActive <= MAX_READERS && target.layers > 0 && (draft.Some? ==> draft.value.layers > 0)
    requires coordination.Some? ==> Empty(coordination.value)
    requires cfg.tokenCapacity ==
             if draft.None? then TokenCapacity(target.pages, target.layers, cfg.pageTokens)
             else Min(TokenCapacity(target.pages, target.layers, cfg.pageTokens),
                      TokenCapacity(draft.value.pages, draft.value.layers, cfg.pageTokens))
    ensures SystemOk(cfg, System(Tracked(State([], [], None, coordination), {}),
                                 CacheRuns.FreshCache(target.caching, target.layers, cfg.pageTokens, target.pages, filler),
                                 if draft.None? then None
                                 else Some(CacheRuns.FreshCache(draft.value.caching, draft.value.layers, cfg.pageTokens, draft.value.pages, filler)),
                                 map[]))
  {
    FreshSchedulerOk(cfg, coordination);
    FreshInService(cfg, target, filler);
    if draft.Some? { FreshInService(cfg, draft.value, filler); }
    hide SchedulerOk, CacheInService, CacheRuns.FreshCache;
  }

  lemma FreshInService(cfg: Config, layout: Layout, filler: KvEntry)
    requires cfg.pageTokens > 0 && layout.layers > 0
    requires cfg.tokenCapacity <= TokenCapacity(layout.pages, layout.layers, cfg.pageTokens)
    ensures CacheInService(cfg, CacheRuns.FreshCache(layout.caching, layout.layers, cfg.pageTokens, layout.pages, filler), [], map[])
  {
    CacheRuns.FreshCacheOk(layout.caching, layout.layers, cfg.pageTokens, layout.pages, filler, (l, tokens) => filler);
    CapacityFitsPool(layout.pages, layout.layers, cfg.pageTokens, cfg.tokenCapacity);
    hide CacheOk, LedgerOk;
  }

  /** A normalized request may be submitted: its worst-case reservation fits the capacity. */
  lemma NormalizedMaySubmit(cfg: Config, g: System, id: RequestId, input: seq<Token>, wanted: nat, sampling: Sampling, context: nat,
                            cached: nat)
    requires cfg.pageTokens > 0 && Mod(cfg.tokenCapacity, cfg.pageTokens) == 0 && !InPlay(g.t, id)
    requires Normalize(|input|, wanted, sampling, cfg.tokenCapacity, context).Accepted?
    ensures OpAllowed(cfg, g, Submit(id, input, Normalize(|input|, wanted, sampling, cfg.tokenCapacity, context).maxNew, cached))
  {
    var maxNew := Normalize(|input|, wanted, sampling, cfg.tokenCapacity, context).maxNew;
    NormalizeExact(|input|, wanted, sampling, cfg.tokenCapacity, context);
    CeilDivForm(cfg.tokenCapacity, cfg.pageTokens);
    CeilDivMonotone(CachedDemand(|input|, maxNew), cfg.tokenCapacity, cfg.pageTokens);
  }
}
