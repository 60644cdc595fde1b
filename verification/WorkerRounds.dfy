/** What a round of the worker means for each request: every admitted request is started or leaves the books,
    every scheduled one is told its own reply and follows it, and nobody else is touched. */
module WorkerRounds {
  import opened Common
  import opened PrefixCacheFlight
  import opened SchedulerSpec
  import opened SchedulingDecision
  import opened SchedulerRuns
  import opened WorkerLedgers
  import opened ModelExecutorObject
  import opened RequestManagerObject
  import opened WorkerEnvironment
  import opened WorkerBooks

  /** The scheduler's entry of an active request. */
  function Entry(s: State, x: RequestId): Option<Request> {
    match Position(s.active, x)
    case None => None
    case Some(k) => PositionFound(s.active, x, 0); Some(s.active[k])
  }

  /** The entry after a phase other than the finished one was followed. */
  function Rephased(r: Request, phase: GenerationPhase): Request {
    match phase
    case PrefillPhase(n) => r.(phase := Prefill(n))
    case DecodePhase(g) => r.(phase := Decode, generated := g)
    case FinishedPhase => r
  }

  /** A phase is followed when it does not go back from decode to prefill and a publication it calls for,
      as the first decode phase of a leader does, works. */
  predicate Accepted(s: State, r: Request, phase: GenerationPhase, publishes: bool) {
    && (phase.PrefillPhase? ==> r.phase.Prefill?)
    && (phase.DecodePhase? && r.phase.Prefill? && MustPublish(s, r.id) ==> publishes)
  }

  /** A request is as it was, in the scheduler, on the books and in what was reported. */
  ghost predicate Untouched(b: Books, b': Books, x: RequestId) {
    && Entry(b'.s, x) == Entry(b.s, x) && MustPublish(b'.s, x) == MustPublish(b.s, x)
    && (x in b'.stages <==> x in b.stages) && (x in b.stages ==> b'.stages[x] == b.stages[x])
    && b'.reported[x] == b.reported[x]
  }

  /** A request left the scheduler and the books, and its client was told so, once. */
  ghost predicate Left(b: Books, b': Books, x: RequestId) {
    x !in b'.stages && Entry(b'.s, x) == None && b'.reported[x] == b.reported[x] + 1
  }

  ghost predicate InOrder(cfg: Config, b: Books) { SchedulerOk(cfg, Tracked(b.s, {})) }

  // ---- Entries --------------------------------------------------------------------------------------

  lemma EntryHeld(s: State, x: RequestId)
    ensures Entry(s, x).Some? <==> x in IdSet(s.active)
    ensures Entry(s, x).Some? ==> Entry(s, x).value.id == x && Entry(s, x).value in s.active
  {
    PositionFound(s.active, x, 0);
    assert x in IdSet(s.active) <==> Holds(s.active, x);
  }

  lemma EntryAt(s: State, k: nat)
    requires IdsDistinct(s.active) && k < |s.active|
    ensures Entry(s, s.active[k].id) == Some(s.active[k])
  {
    PositionFound(s.active, s.active[k].id, 0);
  }

  lemma ActiveDistinct(cfg: Config, s: State, gone: set<RequestId>)
    requires SchedulerOk(cfg, Tracked(s, gone))
    ensures IdsDistinct(s.active)
  {
  }

  lemma EntryDropped(s: State, s': State, k: nat, x: RequestId)
    requires IdsDistinct(s.active) && k < |s.active| && s'.active == Drop(s.active, k)
    ensures Entry(s', x) == if x == s.active[k].id then None else Entry(s, x)
  {
    DropExact(s.active, k);
    PositionFound(s.active, x, 0);
    PositionFound(s'.active, x, 0);
    if x != s.active[k].id && Position(s.active, x).Some? {
      var i := Position(s.active, x).value;
      var j := if i < k then i else i - 1;
      assert s'.active[j] == s.active[i];
      EntryAt(s', j);
    }
  }

  lemma EntryReplaced(s: State, s': State, k: nat, x: RequestId)
    requires IdsDistinct(s.active) && k < |s.active| && |s'.active| == |s.active|
    requires s'.active == s.active[k := s'.active[k]] && s'.active[k].id == s.active[k].id
    ensures Entry(s', x) == if x == s.active[k].id then Some(s'.active[k]) else Entry(s, x)
  {
    assert forall i :: 0 <= i < |s.active| ==> s'.active[i].id == s.active[i].id;
    PositionFound(s.active, x, 0);
    PositionFound(s'.active, x, 0);
    if x == s.active[k].id {
      EntryAt(s', k);
    } else if Position(s.active, x).Some? {
      EntryAt(s', Position(s.active, x).value);
    }
  }

  // ---- One operation of the scheduler -------------------------------------------------------------

  /** How a phase is taken over. */
  lemma UpdateMeans(cfg: Config, s: State, id: RequestId, phase: GenerationPhase)
    requires SchedulerOk(cfg, Tracked(s, {})) && id in IdSet(s.active)
    ensures Entry(s, id).Some?
    ensures var ((s', r), e) := (UpdatePhase(s, id, phase), Entry(s, id).value);
            && (r.PhaseOk? <==> (phase.PrefillPhase? ==> e.phase.Prefill?)) && (r.PhaseError? ==> s' == s)
            && (r.PhaseOk? ==> Entry(s', id) == if phase.FinishedPhase? then None else Some(Rephased(e, phase)))
            && (r.PhaseOk? ==> (r.mustPublish <==> phase.DecodePhase? && e.phase.Prefill? && MustPublish(s, id)))
            && (forall x :: x != id ==> Entry(s', x) == Entry(s, x)) && s'.next == s.next && s'.coordination == s.coordination
  {
    EntryHeld(s, id);
    ActiveDistinct(cfg, s, {});
    PositionFound(s.active, id, 0);
    hide SchedulerOk, IdSet;
    var k := Position(s.active, id).value;
    var (s', r) := UpdatePhase(s, id, phase);
    if r.PhaseOk? {
      forall x ensures Entry(s', x) == if x == id then (if phase.FinishedPhase? then None else Some(Rephased(s.active[k], phase))) else Entry(s, x) {
        if phase.FinishedPhase? { EntryDropped(s, s', k, x); } else { EntryReplaced(s, s', k, x); }
      }
    }
  }

  lemma RoleIsNotWaiting(cfg: Config, s: State, gone: set<RequestId>, x: RequestId)
    requires SchedulerOk(cfg, Tracked(s, gone)) && x in IdSet(s.active) && s.coordination.Some?
    ensures FlightsOk(s.coordination.value) && !IsFollower(s.coordination.value, x)
  {
    hide FlightsOk, IsFollower;
    assert Holds(s.active, x);
  }

  lemma TerminateMeans(cfg: Config, s: State, id: RequestId, how: Termination, x: RequestId)
    requires SchedulerOk(cfg, Tracked(s, {id})) && x != id && x in IdSet(s.active)
    ensures MustPublish(Terminate(s, id, how).0, x) == MustPublish(s, x)
  {
    hide SchedulerOk, Remove, RequiresPublication, Unblock;
    if s.coordination.Some? {
      RoleIsNotWaiting(cfg, s, {id}, x);
      OthersKeepRole(s.coordination.value, id, how, x);
    }
  }

  lemma ReleaseMeans(cfg: Config, s: State, id: RequestId, x: RequestId)
    requires SchedulerOk(cfg, Tracked(s, {})) && x != id && x in IdSet(s.active)
    ensures MustPublish(ReleasePrefixFlight(s, id).0, x) == MustPublish(s, x)
  {
    hide SchedulerOk, ReleaseAfterPublication, RequiresPublication, Unblock;
    if s.coordination.Some? {
      RoleIsNotWaiting(cfg, s, {}, x);
      OthersKeepRole(s.coordination.value, id, Aborted, x);
    }
  }

  /** Active requests other than one keep their entries and roles. */
  ghost predicate OthersStand(s: State, s': State, id: RequestId) {
    && s'.next == s.next
    && forall x :: x != id && x in IdSet(s.active) ==> Entry(s', x) == Entry(s, x) && MustPublish(s', x) == MustPublish(s, x)
  }

  lemma SameActiveEntries(s: State, s': State, x: RequestId)
    requires s'.active == s.active
    ensures Entry(s', x) == Entry(s, x)
  {
  }

  lemma NextKept(s: State, id: RequestId, how: Termination)
    ensures Terminate(s, id, how).0.next == s.next && ReleasePrefixFlight(s, id).0.next == s.next && RemoveActive(s, id).0.next == s.next
  {
    hide Remove, ReleaseAfterPublication, Unblock;
  }

  /** A request that is aborted leaves the scheduler; nobody else is touched. */
  lemma AbortMeans(cfg: Config, s: State, id: RequestId)
    requires SchedulerOk(cfg, Tracked(s, {})) && id in IdSet(s.active)
    ensures SchedulerOk(cfg, Tracked(Aborts(s, id), {})) && Entry(Aborts(s, id), id) == None && OthersStand(s, Aborts(s, id), id)
    ensures IdSet(Aborts(s, id).active) == IdSet(s.active) - {id}
  {
    hide SchedulerOk, Terminate, IdSet, MustPublish;
    EntryHeld(s, id);
    ActiveDistinct(cfg, s, {});
    DepartureMoves(cfg, s, id, Aborted);
    RemoveActiveMoves(cfg, s, id);
    TerminateMoves(cfg, RemoveActive(s, id).0, id, Aborted);
    PositionFound(s.active, id, 0);
    var (k, removed) := (Position(s.active, id).value, RemoveActive(s, id).0);
    NextKept(removed, id, Aborted);
    forall x ensures Entry(Aborts(s, id), x) == if x == id then None else Entry(s, x) {
      EntryDropped(s, removed, k, x);
      SameActiveEntries(removed, Aborts(s, id), x);
    }
    forall x | x != id && x in IdSet(s.active) ensures MustPublish(Aborts(s, id), x) == MustPublish(s, x) {
      TerminateMeans(cfg, removed, id, Aborted, x);
      SameRole(s, removed, x);
    }
  }

  lemma SameRole(s: State, s': State, x: RequestId)
    requires s'.coordination == s.coordination
    ensures MustPublish(s', x) == MustPublish(s, x)
  {
  }

  /** A followed phase other than the finished one. */
  lemma HandleMeans(cfg: Config, s: State, id: RequestId, phase: GenerationPhase, publishes: bool)
    requires SchedulerOk(cfg, Tracked(s, {})) && id in IdSet(s.active) && !phase.FinishedPhase?
    ensures Entry(s, id).Some?
    ensures var ((s', ok), e) := (HandlePhase(s, id, phase, publishes), Entry(s, id).value);
            && SchedulerOk(cfg, Tracked(s', {})) && IdSet(s'.active) == IdSet(s.active) && OthersStand(s, s', id)
            && (ok <==> Accepted(s, e, phase, publishes)) && (ok ==> Entry(s', id) == Some(Rephased(e, phase)))
  {
    hide SchedulerOk, UpdatePhase, ReleasePrefixFlight, IdSet, MustPublish, GoesForward, WorkerLedgers.InPrefill, RequiresPublication;
    UpdateMeans(cfg, s, id, phase);
    EntryHeld(s, id);
    PhaseMoves(cfg, s, id, phase);
    var (updated, r) := UpdatePhase(s, id, phase);
    forall x ensures MustPublish(updated, x) == MustPublish(s, x) { SameRole(s, updated, x); }
    if r.PhaseOk? && r.mustPublish && publishes {
      ReleaseMoves(cfg, updated, id);
      NextKept(updated, id, Aborted);
      var s' := ReleasePrefixFlight(updated, id).0;
      forall x ensures Entry(s', x) == Entry(updated, x) { SameActiveEntries(updated, s', x); }
      forall x | x != id && x in IdSet(s.active) ensures MustPublish(s', x) == MustPublish(s, x) { ReleaseMeans(cfg, updated, id, x); }
    }
  }

  /** A finished request leaves the scheduler. */
  lemma FinishMeans(cfg: Config, s: State, id: RequestId, publishes: bool, how: Termination)
    requires SchedulerOk(cfg, Tracked(s, {})) && id in IdSet(s.active)
    ensures var (s', ok) := HandlePhase(s, id, FinishedPhase, publishes);
            var s'' := Terminate(s', id, how).0;
            && ok && SchedulerOk(cfg, Tracked(s'', {})) && Entry(s'', id) == None && OthersStand(s, s'', id)
            && IdSet(s''.active) == IdSet(s.active) - {id}
  {
    hide SchedulerOk, UpdatePhase, Terminate, IdSet, MustPublish, GoesForward;
    UpdateMeans(cfg, s, id, FinishedPhase);
    AlwaysForward(s, id);
    PhaseMoves(cfg, s, id, FinishedPhase);
    var finished := UpdatePhase(s, id, FinishedPhase).0;
    TerminateMoves(cfg, finished, id, how);
    NextKept(finished, id, how);
    var s'' := Terminate(finished, id, how).0;
    forall x ensures Entry(s'', x) == Entry(finished, x) { SameActiveEntries(finished, s'', x); }
    forall x | x != id && x in IdSet(s.active) ensures MustPublish(s'', x) == MustPublish(s, x) {
      TerminateMeans(cfg, finished, id, how, x);
      SameRole(s, finished, x);
    }
  }

  lemma AlwaysForward(s: State, id: RequestId)
    ensures GoesForward(s, id, FinishedPhase)
  {
  }

  // ---- One request of a round ---------------------------------------------------------------------

  /** A reply is followed: the request goes on in the reported phase, or it leaves. */
  ghost predicate Answered(b: Books, b': Books, id: RequestId, reply: Option<GenerationPhase>, publishes: bool) {
    && Entry(b.s, id).Some?
    && var e := Entry(b.s, id).value;
       if reply.Some? && !reply.value.FinishedPhase? && Accepted(b.s, e, reply.value, publishes) then
         && Entry(b'.s, id) == Some(Rephased(e, reply.value)) && b'.reported[id] == b.reported[id]
         && (id in b'.stages <==> id in b.stages) && (id in b.stages ==> b'.stages[id] == b.stages[id])
       else Left(b, b', id)
  }

  /** One turn: the scheduler stays in order, and everybody else active is untouched. */
  ghost predicate TurnKeeps(cfg: Config, b: Books, b': Books, id: RequestId) {
    && InOrder(cfg, b') && IdSet(b.s.active) - {id} <= IdSet(b'.s.active) <= IdSet(b.s.active) && b'.s.next == b.s.next
    && (forall x :: x != id && x in IdSet(b.s.active) ==> Untouched(b, b', x))
    && (forall x :: x != id ==>
          (x in b'.stages <==> x in b.stages) && (x in b.stages ==> b'.stages[x] == b.stages[x]) && b'.reported[x] == b.reported[x])
  }

  lemma LeaveMeans(cfg: Config, b: Books, s: State, id: RequestId)
    requires SchedulerOk(cfg, Tracked(s, {})) && Entry(s, id) == None && OthersStand(b.s, s, id) && id in IdSet(b.s.active)
    requires IdSet(s.active) == IdSet(b.s.active) - {id}
    ensures Left(b, OffBooks(b, s, id), id) && TurnKeeps(cfg, b, OffBooks(b, s, id), id)
  {
    hide SchedulerOk, IdSet, MustPublish;
  }

  /** An abort after a refused phase or publication is like an abort before it. */
  lemma RefusedMeans(cfg: Config, s: State, s': State, id: RequestId)
    requires SchedulerOk(cfg, Tracked(s', {})) && id in IdSet(s.active) && IdSet(s'.active) == IdSet(s.active) && OthersStand(s, s', id)
    ensures SchedulerOk(cfg, Tracked(Aborts(s', id), {})) && Entry(Aborts(s', id), id) == None && OthersStand(s, Aborts(s', id), id)
    ensures IdSet(Aborts(s', id).active) == IdSet(s.active) - {id}
  {
    hide SchedulerOk, Aborts, IdSet, MustPublish;
    AbortMeans(cfg, s', id);
  }

  lemma FollowMeans(cfg: Config, drafted: bool, b: Books, r: StepResult, env: Environment)
    requires InOrder(cfg, b) && r.id in IdSet(b.s.active)
    ensures Answered(b, FollowBooks(b, r, drafted, env), r.id, r.phase, env.publishes(r.id))
    ensures TurnKeeps(cfg, b, FollowBooks(b, r, drafted, env), r.id)
  {
    hide SchedulerOk, HandlePhase, Terminate, Aborts, IdSet, MustPublish, Accepted;
    EntryHeld(b.s, r.id);
    match r.phase
    case None =>
      AbortMeans(cfg, b.s, r.id);
      LeaveMeans(cfg, b, Aborts(b.s, r.id), r.id);
    case Some(phase) =>
      var (s', ok) := HandlePhase(b.s, r.id, phase, env.publishes(r.id));
      if phase.FinishedPhase? {
        var how := FinishHow(drafted, env.finish(r.id));
        FinishMeans(cfg, b.s, r.id, env.publishes(r.id), how);
        LeaveMeans(cfg, b, Terminate(s', r.id, how).0, r.id);
      } else {
        HandleMeans(cfg, b.s, r.id, phase, env.publishes(r.id));
        if !ok {
          RefusedMeans(cfg, b.s, s', r.id);
          LeaveMeans(cfg, b, Aborts(s', r.id), r.id);
        }
      }
  }

  /** How an admitted request's start went. */
  ghost predicate StartAnswered(b: Books, b': Books, id: RequestId, start: StartReport, publishes: bool) {
    && Entry(b.s, id).Some?
    && var e := Entry(b.s, id).value;
       if !start.StartFails? && Accepted(b.s, e, InitialPhase(start), publishes) then
         && Entry(b'.s, id) == Some(Rephased(e, InitialPhase(start)))
         && id in b'.stages && b'.stages[id] == Executing && b'.reported[id] == b.reported[id]
       else Left(b, b', id)
  }

  lemma StartMeans(cfg: Config, b: Books, id: RequestId, leaked: set<RequestId>, env: Environment)
    requires InOrder(cfg, b) && id in IdSet(b.s.active)
    ensures StartAnswered(b, StartBooks(b, id, leaked, env), id, if id in leaked then StartFails else env.start(id), env.publishes(id))
    ensures TurnKeeps(cfg, b, StartBooks(b, id, leaked, env), id)
  {
    hide SchedulerOk, HandlePhase, Terminate, Aborts, IdSet, MustPublish, Accepted;
    EntryHeld(b.s, id);
    var start := if id in leaked then StartFails else env.start(id);
    if start.StartFails? {
      AbortMeans(cfg, b.s, id);
      LeaveMeans(cfg, b, Aborts(b.s, id), id);
    } else {
      var (s', ok) := HandlePhase(b.s, id, InitialPhase(start), env.publishes(id));
      HandleMeans(cfg, b.s, id, InitialPhase(start), env.publishes(id));
      if !ok {
        RefusedMeans(cfg, b.s, s', id);
        LeaveMeans(cfg, b, Aborts(s', id), id);
      }
    }
  }

  // ---- Several requests ---------------------------------------------------------------------------

  /** Only the listed requests are touched. */
  ghost predicate OnlyThese(cfg: Config, b: Books, b': Books, ids: seq<RequestId>) {
    && InOrder(cfg, b') && IdSet(b'.s.active) <= IdSet(b.s.active) && b'.s.next == b.s.next
    && (forall x :: x !in ids && x in IdSet(b.s.active) ==> x in IdSet(b'.s.active) && Untouched(b, b', x))
    && (forall x :: x !in ids ==>
          (x in b'.stages <==> x in b.stages) && (x in b.stages ==> b'.stages[x] == b.stages[x]) && b'.reported[x] == b.reported[x])
  }

  lemma NoneTouched(cfg: Config, b: Books)
    requires InOrder(cfg, b)
    ensures OnlyThese(cfg, b, b, [])
  {
  }

  lemma OneMoreTouched(cfg: Config, b: Books, b1: Books, b': Books, ids: seq<RequestId>, id: RequestId)
    requires OnlyThese(cfg, b, b1, ids) && TurnKeeps(cfg, b1, b', id)
    ensures OnlyThese(cfg, b, b', ids + [id])
  {
    hide SchedulerOk, Entry, MustPublish, IdSet;
    forall x | x !in ids + [id] ensures x !in ids && x != id {
      assert (ids + [id])[|ids|] == id;
      assert forall i :: 0 <= i < |ids| ==> (ids + [id])[i] == ids[i];
    }
  }

  /** What was answered stays so when another request has its turn. */
  lemma AnswerStays(cfg: Config, b: Books, b1: Books, b': Books, id: RequestId, reply: Option<GenerationPhase>, publishes: bool, other: RequestId)
    requires Answered(b, b1, id, reply, publishes) && TurnKeeps(cfg, b1, b', other) && id != other
    ensures Answered(b, b', id, reply, publishes)
  {
    hide SchedulerOk, MustPublish, Accepted, IdSet, Entry;
    EntryHeld(b1.s, id);
    EntryHeld(b'.s, id);
  }

  /** What a request is told does not depend on those that had their turn before. */
  lemma AnswerCarries(cfg: Config, b: Books, b1: Books, b': Books, ids: seq<RequestId>, id: RequestId, reply: Option<GenerationPhase>,
                      publishes: bool)
    requires OnlyThese(cfg, b, b1, ids) && id !in ids && id in IdSet(b.s.active) && Answered(b1, b', id, reply, publishes)
    ensures Answered(b, b', id, reply, publishes)
  {
    hide SchedulerOk, MustPublish, IdSet, Entry;
    EntryIsOwn(b.s, id);
  }

  lemma EntryIsOwn(s: State, id: RequestId)
    ensures Entry(s, id).Some? ==> Entry(s, id).value.id == id
  {
    EntryHeld(s, id);
  }

  /** Every result is followed by its own request, and nobody else is touched. */
  lemma {:induction false} FollowAllMeans(cfg: Config, drafted: bool, b: Books, results: seq<StepResult>, env: Environment)
    requires InOrder(cfg, b) && Distinct(ResultIds(results)) && forall i :: 0 <= i < |results| ==> results[i].id in IdSet(b.s.active)
    ensures OnlyThese(cfg, b, FollowAllBooks(b, results, drafted, env), ResultIds(results))
    ensures forall i :: 0 <= i < |results| ==>
              Answered(b, FollowAllBooks(b, results, drafted, env), results[i].id, results[i].phase, env.publishes(results[i].id))
    decreases |results|
  {
    hide SchedulerOk, InOrder, Answered, OnlyThese, TurnKeeps, FollowBooks, IdSet;
    if results == [] {
      NoneTouched(cfg, b);
      assert ResultIds(results) == [];
    } else {
      var before, last := results[..|results| - 1], Last(results);
      ResultsBefore(results);
      FollowAllMeans(cfg, drafted, b, before, env);
      var b1 := FollowAllBooks(b, before, drafted, env);
      var b' := FollowBooks(b1, last, drafted, env);
      StillActive(cfg, b, b1, ResultIds(before), last.id);
      FollowMeans(cfg, drafted, b1, last, env);
      OneMoreTouched(cfg, b, b1, b', ResultIds(before), last.id);
      AnswerCarries(cfg, b, b1, b', ResultIds(before), last.id, last.phase, env.publishes(last.id));
      forall i | 0 <= i < |results| ensures Answered(b, b', results[i].id, results[i].phase, env.publishes(results[i].id)) {
        if i < |before| {
          assert results[i] == before[i] && ResultIds(before)[i] == before[i].id;
          AnswerStays(cfg, b, b1, b', results[i].id, results[i].phase, env.publishes(results[i].id), last.id);
        }
      }
    }
  }

  lemma ResultsBefore(results: seq<StepResult>)
    requires results != [] && Distinct(ResultIds(results))
    ensures var before := results[..|results| - 1];
            && Distinct(ResultIds(before)) && Last(results).id !in ResultIds(before) && ResultIds(results) == ResultIds(before) + [Last(results).id]
  {
    var before := results[..|results| - 1];
    forall i, j | 0 <= i < j < |before| ensures ResultIds(before)[i] != ResultIds(before)[j] {
      assert ResultIds(results)[i] != ResultIds(results)[j];
    }
    forall i | 0 <= i < |before| ensures ResultIds(before)[i] != Last(results).id { assert ResultIds(results)[i] != ResultIds(results)[|before|]; }
  }

  lemma StillActive(cfg: Config, b: Books, b1: Books, ids: seq<RequestId>, id: RequestId)
    requires OnlyThese(cfg, b, b1, ids) && id !in ids && id in IdSet(b.s.active)
    ensures InOrder(cfg, b1) && id in IdSet(b1.s.active)
  {
  }

  lemma StartStays(cfg: Config, b: Books, b1: Books, b': Books, id: RequestId, start: StartReport, publishes: bool, other: RequestId)
    requires StartAnswered(b, b1, id, start, publishes) && TurnKeeps(cfg, b1, b', other) && id != other
    ensures StartAnswered(b, b', id, start, publishes)
  {
    hide SchedulerOk, MustPublish, Accepted, IdSet, Entry;
    EntryHeld(b1.s, id);
    EntryHeld(b'.s, id);
  }

  lemma StartCarries(cfg: Config, b: Books, b1: Books, b': Books, ids: seq<RequestId>, id: RequestId, start: StartReport, publishes: bool)
    requires OnlyThese(cfg, b, b1, ids) && id !in ids && id in IdSet(b.s.active) && StartAnswered(b1, b', id, start, publishes)
    ensures StartAnswered(b, b', id, start, publishes)
  {
    hide SchedulerOk, MustPublish, IdSet, Entry;
    EntryIsOwn(b.s, id);
  }

  /** Every admitted request is started in its turn or leaves, and nobody else is touched. */
  lemma {:induction false} StartAllMeans(cfg: Config, b: Books, ids: seq<RequestId>, leaked: set<RequestId>, env: Environment)
    requires InOrder(cfg, b) && Distinct(ids) && forall i :: 0 <= i < |ids| ==> ids[i] in IdSet(b.s.active)
    ensures OnlyThese(cfg, b, StartAllBooks(b, ids, leaked, env), ids)
    ensures forall i :: 0 <= i < |ids| ==>
              StartAnswered(b, StartAllBooks(b, ids, leaked, env), ids[i], if ids[i] in leaked then StartFails else env.start(ids[i]),
                            env.publishes(ids[i]))
    decreases |ids|
  {
    hide SchedulerOk, InOrder, StartAnswered, OnlyThese, TurnKeeps, StartBooks, IdSet;
    if ids == [] {
      NoneTouched(cfg, b);
    } else {
      var before, last := ids[..|ids| - 1], Last(ids);
      assert Distinct(before) && last !in before && ids == before + [last];
      StartAllMeans(cfg, b, before, leaked, env);
      var b1 := StartAllBooks(b, before, leaked, env);
      var b' := StartBooks(b1, last, leaked, env);
      StillActive(cfg, b, b1, before, last);
      StartMeans(cfg, b1, last, leaked, env);
      OneMoreTouched(cfg, b, b1, b', before, last);
      StartCarries(cfg, b, b1, b', before, last, if last in leaked then StartFails else env.start(last), env.publishes(last));
      forall i | 0 <= i < |ids|
        ensures StartAnswered(b, b', ids[i], if ids[i] in leaked then StartFails else env.start(ids[i]), env.publishes(ids[i]))
      {
        if i < |before| {
          assert ids[i] == before[i];
          StartStays(cfg, b, b1, b', ids[i], if ids[i] in leaked then StartFails else env.start(ids[i]), env.publishes(ids[i]), last);
        }
      }
    }
  }

  // ---- A round ------------------------------------------------------------------------------------

  /** Whatever is active is executing. */
  ghost predicate ActiveExecutes(b: Books) { forall x :: x in IdSet(b.s.active) ==> x in b.stages && b.stages[x] == Executing }

  /** The first half of a round, from the books before it to those after the starts. */
  ghost predicate StartsMean(cfg: Config, b: Books, b1: Books, leaked: set<RequestId>, env: Environment)
    requires cfg.pageTokens > 0
  {
    var (admitted, ids) := Admit(cfg, b.s);
    && OnlyThese(cfg, b.(s := admitted), b1, ids)
    && forall i :: 0 <= i < |ids| ==>
         StartAnswered(b.(s := admitted), b1, ids[i], if ids[i] in leaked then StartFails else env.start(ids[i]), env.publishes(ids[i]))
  }

  /** The second half: the decision names somebody if it can, each scheduled request follows its own reply,
      and nobody else is touched; the round-robin turn moves on as decided. */
  ghost predicate StepsMean(cfg: Config, b1: Books, b': Books, env: Environment) {
    var (decided, grants) := Decide(cfg, b1.s);
    && (cfg.maxBatchedTokens > 0 && b1.s.active != [] ==> grants != [])
    && (forall n :: 0 <= n < |grants| ==>
          && grants[n].id in IdSet(b1.s.active)
          && Answered(b1, b', grants[n].id, ReplyTo(b1.stages, grants, env.closed, env.run, n).phase, env.publishes(grants[n].id)))
    && OnlyThese(cfg, b1.(s := decided), b', GrantIds(grants))
    && b'.s.next == decided.next
  }

  lemma StartsOfRound(cfg: Config, b: Books, leaked: set<RequestId>, env: Environment)
    requires InOrder(cfg, b) && ActiveExecutes(b)
    ensures cfg.pageTokens > 0 && StartsMean(cfg, b, StartedBooks(cfg, b, leaked, env), leaked, env)
    ensures InOrder(cfg, StartedBooks(cfg, b, leaked, env)) && ActiveExecutes(StartedBooks(cfg, b, leaked, env))
  {
    assert cfg.pageTokens > 0;
    hide SchedulerOk, Admit, StartAnswered;
    AdmitMoves(cfg, b.s);
    var (admitted, ids) := Admit(cfg, b.s);
    forall i | 0 <= i < |ids| ensures ids[i] in IdSet(admitted.active) { assert ids[i] in Elements(ids); }
    StartAllMeans(cfg, b.(s := admitted), ids, leaked, env);
    ActiveAfterStarts(cfg, b, leaked, env);
  }

  lemma ActiveAfterStarts(cfg: Config, b: Books, leaked: set<RequestId>, env: Environment)
    requires InOrder(cfg, b) && ActiveExecutes(b) && cfg.pageTokens > 0
    requires StartsMean(cfg, b, StartedBooks(cfg, b, leaked, env), leaked, env)
    ensures ActiveExecutes(StartedBooks(cfg, b, leaked, env))
  {
    hide SchedulerOk, Admit, StartedBooks, Accepted, Entry;
    AdmitMoves(cfg, b.s);
    var (admitted, ids) := Admit(cfg, b.s);
    var b1 := StartedBooks(cfg, b, leaked, env);
    forall x | x in IdSet(b1.s.active) ensures x in b1.stages && b1.stages[x] == Executing {
      EntryHeld(b1.s, x);
      if x in ids {
        var i :| 0 <= i < |ids| && ids[i] == x;
      } else {
        assert x in IdSet(b.s.active);
      }
    }
  }

  lemma StepsOfRound(cfg: Config, drafted: bool, b1: Books, env: Environment)
    requires InOrder(cfg, b1) && ActiveExecutes(b1)
    ensures var (decided, results) := DecidedBooks(cfg, b1, env);
            StepsMean(cfg, b1, FollowAllBooks(decided, results, drafted, env), env)
  {
    hide Decide, Advance, ReplyTo, FollowAllBooks, Answered, OnlyThese;
    var (decided, results) := DecidedBooks(cfg, b1, env);
    var (s, grants) := Decide(cfg, b1.s);
    DecidedInOrder(cfg, b1.s);
    GrantsAreActive(cfg, b1);
    AdvanceExact(b1.stages, grants, env.closed, env.run);
    forall i | 0 <= i < |results| ensures results[i].id in IdSet(decided.s.active) {
      assert ResultIds(results)[i] == results[i].id && results[i].id in GrantIds(grants);
    }
    hide SchedulerOk, IdSet;
    FollowAllMeans(cfg, drafted, decided, results, env);
    var b' := FollowAllBooks(decided, results, drafted, env);
    SameTouched(cfg, b1, decided, b', grants, results);
    forall n | 0 <= n < |grants|
      ensures Answered(b1, b', grants[n].id, ReplyTo(b1.stages, grants, env.closed, env.run, n).phase, env.publishes(grants[n].id))
    {
      AdvanceReplies(b1.stages, grants, env.closed, env.run, n);
      var reply := ReplyTo(b1.stages, grants, env.closed, env.run, n);
      var i :| 0 <= i < |results| && results[i] == StepResult(grants[n].id, reply.phase);
      ReplyStage(b1.stages, grants, env.closed, env.run, n);
      AnsweredAfterDecision(cfg, b1, decided, b', grants[n].id, reply, env.publishes(grants[n].id));
    }
  }

  lemma ReplyStage(stages: Stages, grants: seq<Grant>, closed: set<RequestId>, run: RunReport, n: nat)
    requires n < |grants|
    ensures ReplyTo(stages, grants, closed, run, n).phase.Some? ==>
              ReplyTo(stages, grants, closed, run, n).stage == Executing && grants[n].id in stages && stages[grants[n].id] == Executing
  {
  }

  lemma AnsweredAfterDecision(cfg: Config, b1: Books, decided: Books, b': Books, id: RequestId, reply: Settlement, publishes: bool)
    requires Answered(decided, b', id, reply.phase, publishes) && decided.reported == b1.reported
    requires decided.s == b1.s.(next := decided.s.next)
    requires id in b1.stages && id in decided.stages && (reply.phase.Some? ==> decided.stages[id] == b1.stages[id])
    ensures Answered(b1, b', id, reply.phase, publishes)
  {
  }

  lemma DecidedInOrder(cfg: Config, s: State)
    ensures var s' := Decide(cfg, s).0;
            && s' == s.(next := s'.next) && (SchedulerOk(cfg, Tracked(s, {})) ==> SchedulerOk(cfg, Tracked(s', {})))
  {
    hide FlightsOk, IsKnown, IsFollower, ScheduleDecodes, SchedulePrefills, OrderPrefills, NextCursor, Prefills;
  }

  lemma GrantsAreActive(cfg: Config, b1: Books)
    requires InOrder(cfg, b1) && ActiveExecutes(b1)
    ensures var grants := Decide(cfg, b1.s).1;
            && Distinct(GrantIds(grants))
            && (forall n :: 0 <= n < |grants| ==>
                  grants[n].id in IdSet(b1.s.active) && grants[n].id in b1.stages && b1.stages[grants[n].id] == Executing)
            && (forall id :: id in GrantIds(grants) ==> id in IdSet(b1.s.active))
            && (cfg.maxBatchedTokens > 0 && b1.s.active != [] ==> grants != [])
  {
    ActiveDistinct(cfg, b1.s, {});
    hide Decide, SchedulerOk;
    OneGrantEach(cfg, b1.s);
    var grants := Decide(cfg, b1.s).1;
    forall n | 0 <= n < |grants| ensures grants[n].id in IdSet(b1.s.active) {
      var i :| 0 <= i < |b1.s.active| && b1.s.active[i].id == grants[n].id;
    }
    if b1.s.active != [] && cfg.maxBatchedTokens > 0 { SomebodyScheduled(cfg, b1.s); }
  }

  lemma SomebodyScheduled(cfg: Config, s: State)
    requires s.active != [] && cfg.maxBatchedTokens > 0
    ensures Decide(cfg, s).1 != []
  {
    hide ScheduleDecodes, SchedulePrefills, OrderPrefills, NextCursor;
    DecodesWithinBudget(s.active, cfg.maxBatchedTokens);
    var ordered := OrderPrefills(cfg.policy, Prefills(s.active), s.next);
    OrderKeepsWork(cfg.policy, Prefills(s.active), s.next);
    assert |multiset(ordered)| == |ordered| && |multiset(Prefills(s.active))| == |Prefills(s.active)|;
    PrefillGrants(ordered, cfg.maxBatchedTokens - |ScheduleDecodes(s.active, cfg.maxBatchedTokens)|);
    assert s.active[0].phase.Decode? || Prefills(s.active) != [];
  }

  lemma SameTouched(cfg: Config, b1: Books, decided: Books, b': Books, grants: seq<Grant>, results: seq<StepResult>)
    requires OnlyThese(cfg, decided, b', ResultIds(results)) && Advanced(b1.stages, grants, decided.stages, results)
    requires decided.reported == b1.reported && InOrder(cfg, b1)
    ensures OnlyThese(cfg, b1.(s := decided.s), b', GrantIds(grants)) && b'.s.next == decided.s.next
  {
    hide SchedulerOk, IdSet, Entry, MustPublish, ResultFits;
  }

  /** A round, for every environment: each admitted request is started or leaves, each scheduled one follows
      the reply that is its own, and nobody else is touched. */
  lemma RoundMeans(cfg: Config, drafted: bool, b: Books, leaked: set<RequestId>, env: Environment)
    requires InOrder(cfg, b) && ActiveExecutes(b)
    ensures cfg.pageTokens > 0
    ensures var (b1, b') := (StartedBooks(cfg, b, leaked, env), RoundBooks(cfg, drafted, b, leaked, env));
            StartsMean(cfg, b, b1, leaked, env) && StepsMean(cfg, b1, b', env) && InOrder(cfg, b') && ActiveExecutes(b')
  {
    hide SchedulerOk, StartedBooks, StartsMean, StepsMean, DecidedBooks, FollowAllBooks, ActiveExecutes;
    StartsOfRound(cfg, b, leaked, env);
    StepsOfRound(cfg, drafted, StartedBooks(cfg, b, leaked, env), env);
    StillExecutes(cfg, StartedBooks(cfg, b, leaked, env), RoundBooks(cfg, drafted, b, leaked, env), env);
  }

  lemma StillExecutes(cfg: Config, b1: Books, b': Books, env: Environment)
    requires ActiveExecutes(b1) && StepsMean(cfg, b1, b', env)
    ensures InOrder(cfg, b') && ActiveExecutes(b')
  {
    hide SchedulerOk, Decide, ReplyTo, Answered, IdSet, Untouched;
    var (decided, grants) := Decide(cfg, b1.s);
    DecidedInOrder(cfg, b1.s);
    forall x | x in IdSet(b'.s.active) ensures x in b'.stages && b'.stages[x] == Executing {
      EntryHeld(b'.s, x);
      if x in GrantIds(grants) {
        var n :| 0 <= n < |grants| && GrantIds(grants)[n] == x;
        AnsweredExecutes(b1, b', x, ReplyTo(b1.stages, grants, env.closed, env.run, n).phase, env.publishes(x));
      }
    }
  }

  lemma AnsweredExecutes(b: Books, b': Books, id: RequestId, reply: Option<GenerationPhase>, publishes: bool)
    requires Answered(b, b', id, reply, publishes) && Entry(b'.s, id).Some? && id in b.stages
    ensures id in b'.stages && b'.stages[id] == b.stages[id]
  {
    hide Accepted, Entry;
  }

  /** Between two rounds of a worker whose ledgers agree, whatever is active executes. */
  lemma PlacedExecutes(cfg: Config, b: Books)
    requires Placed(cfg, b.s, b.stages, {}) && Settled(b.stages)
    ensures InOrder(cfg, b) && ActiveExecutes(b)
  {
    hide SchedulerOk;
    forall x | x in IdSet(b.s.active) ensures x in b.stages && b.stages[x] == Executing { assert x in StartedIn(b.stages); }
  }
}
