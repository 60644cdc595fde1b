/** The worker's own rounds serve its requests. When the world answers as the executions go, a round of the worker
    is the round that serves every request: the scheduler goes the same way, and a client is told exactly when
    its request is done or has failed. So the worker, too, runs out of requests, with everybody told once. */
module WorkerServes {
  import opened Common
  import opened PrefixCacheFlight
  import opened SchedulerSpec
  import opened SchedulingDecision
  import opened SchedulerRuns
  import opened WorkerLedgers
  import opened ModelExecutorObject
  import opened RequestManagerObject
  import opened WorkerEnvironment
  import opened WorkerBooks
  import opened WorkerRounds
  import Batch = RequestExecutionBatchObject
  import Serve = ServedRequests

  // ---- How the world answers -----------------------------------------------------------------------

  /** What a scheduled request reports: the phase after its next step, unless it fails or its client is gone. */
  ghost function Reply(m: Serve.Models, d: Serve.Served, chance: Serve.Chance, g: Grant): Option<GenerationPhase> {
    if g.id in chance.cancelled + chance.failing || g.id !in d.running || !Serve.Executing(m, d.running[g.id]) then None
    else Some(Serve.Reported(Serve.Step(m, d.running[g.id], g.budget).e.phase))
  }

  /** A start fails, or begins with what is left to prefill. */
  ghost predicate StartAsExecuted(asks: Serve.Asks, m: Serve.Models, chance: Serve.Chance, env: Environment, id: RequestId) {
    if id in chance.refused || id !in asks || asks[id].input == [] then env.start(id).StartFails?
    else !env.start(id).StartFails? && InitialPhase(env.start(id)) == Serve.Reported(Serve.Started(asks[id], id, m, chance.restored(id)).e.phase)
  }

  /** Publications work, and so does finishing. */
  ghost predicate Smooth(env: Environment, id: RequestId) { env.publishes(id) && env.finish(id) == FinishReport(true, true, true) }

  ghost predicate AnswersAsExecuted(cfg: Config, asks: Serve.Asks, m: Serve.Models, b: Books, d: Serve.Served, chance: Serve.Chance, env: Environment)
    requires cfg.pageTokens > 0
  {
    && env.closed == chance.cancelled
    && (forall id :: Smooth(env, id)) && (forall id :: StartAsExecuted(asks, m, chance, env, id))
    && var b1 := StartedBooks(cfg, b, {}, env);
       var grants := Decide(cfg, b1.s).1;
       var (admitted, ids) := Admit(cfg, d.s);
       var d1 := Serve.StartAll(asks, m, d.(s := admitted), ids, chance);
       forall n :: 0 <= n < |grants| ==> ReplyTo(b1.stages, grants, env.closed, env.run, n).phase == Reply(m, d1, chance, grants[n])
  }

  // ---- One request ---------------------------------------------------------------------------------

  /** The scheduler is the same, and the clients were told once who is done or failed. */
  ghost predicate Same(b: Books, d: Serve.Served) {
    b.s == d.s && forall id :: b.reported[id] == if id in d.done.Keys + d.failed then 1 else 0
  }

  lemma AbortAgrees(b: Books, d: Serve.Served, id: RequestId)
    requires Same(b, d) && id !in d.done.Keys + d.failed
    ensures Same(OffBooks(b, Aborts(b.s, id), id), Serve.Abort(d, id))
  {
    hide Terminate, RemoveActive;
  }

  /** A followed phase other than the finished one is never refused a publication. */
  lemma PhaseAgrees(cfg: Config, s: State, id: RequestId, phase: GenerationPhase)
    requires SchedulerOk(cfg, Tracked(s, {})) && id in IdSet(s.active)
    ensures var ((s', r), (h, ok)) := (UpdatePhase(s, id, phase), HandlePhase(s, id, phase, true));
            && (ok <==> r.PhaseOk?) && (!ok ==> h == s)
            && (ok ==> h == if r.mustPublish then ReleasePrefixFlight(s', id).0 else s')
            && (phase.FinishedPhase? ==> r == PhaseOk(false))
  {
    hide SchedulerOk, UpdatePhase, ReleasePrefixFlight, IdSet, GoesForward, WorkerLedgers.InPrefill, RequiresPublication;
    PhaseMoves(cfg, s, id, phase);
    UpdateMeans(cfg, s, id, phase);
    var (s', r) := UpdatePhase(s, id, phase);
    if r.PhaseOk? && r.mustPublish { ReleaseMoves(cfg, s', id); }
  }

  lemma FollowAgrees(cfg: Config, drafted: bool, b: Books, d: Serve.Served, id: RequestId, x: Batch.Stepped, env: Environment)
    requires Same(b, d) && InOrder(cfg, b) && id in IdSet(b.s.active) && id !in d.done.Keys + d.failed && Smooth(env, id)
    ensures Same(FollowBooks(b, StepResult(id, Some(Serve.Reported(x.e.phase))), drafted, env), Serve.Follow(d, id, x))
  {
    hide SchedulerOk, UpdatePhase, ReleasePrefixFlight, Terminate, HandlePhase, IdSet, RemoveActive, Aborts, Serve.Abort;
    var phase := Serve.Reported(x.e.phase);
    PhaseAgrees(cfg, b.s, id, phase);
    AbortAgrees(b, d, id);
    var (s', r) := UpdatePhase(b.s, id, phase);
    var (b', d') := (FollowBooks(b, StepResult(id, Some(phase)), drafted, env), Serve.Follow(d, id, x));
    if r.PhaseError? {
      assert b' == OffBooks(b, Aborts(b.s, id), id);
      assert d' == Serve.Abort(d, id);
    } else if phase.FinishedPhase? {
      assert d'.failed == d.failed && d'.done.Keys == d.done.Keys + {id};
      assert b'.s == d'.s;
      assert b'.reported == b.reported + multiset{id};
    } else {
      assert b' == b.(s := d'.s);
    }
  }

  lemma StepAgrees(cfg: Config, m: Serve.Models, b: Books, d: Serve.Served, g: Grant, chance: Serve.Chance, env: Environment)
    requires Same(b, d) && InOrder(cfg, b) && g.id in IdSet(b.s.active) && g.id !in d.done.Keys + d.failed && Smooth(env, g.id)
    ensures Same(FollowBooks(b, StepResult(g.id, Reply(m, d, chance, g)), m.draft.Some?, env), Serve.StepOne(m, d, g, chance))
  {
    hide SchedulerOk, Same, FollowBooks, Serve.Follow, IdSet, Serve.Executing, Serve.Step;
    if Reply(m, d, chance, g).None? {
      AbortAgrees(b, d, g.id);
      FollowedNone(b, g.id, m.draft.Some?, env);
    } else {
      FollowAgrees(cfg, m.draft.Some?, b, d, g.id, Serve.Step(m, d.running[g.id], g.budget), env);
    }
  }

  lemma FollowedNone(b: Books, id: RequestId, drafted: bool, env: Environment)
    ensures FollowBooks(b, StepResult(id, None), drafted, env) == OffBooks(b, Aborts(b.s, id), id)
  {
  }

  lemma StartAgrees(cfg: Config, asks: Serve.Asks, m: Serve.Models, b: Books, d: Serve.Served, id: RequestId, chance: Serve.Chance, env: Environment)
    requires Same(b, d) && InOrder(cfg, b) && id in IdSet(b.s.active) && id !in d.done.Keys + d.failed
    requires Smooth(env, id) && StartAsExecuted(asks, m, chance, env, id)
    ensures Same(StartBooks(b, id, {}, env), Serve.StartOne(asks, m, d, id, chance))
  {
    hide SchedulerOk, UpdatePhase, ReleasePrefixFlight, Terminate, HandlePhase, IdSet, RemoveActive, Aborts, Serve.Abort;
    AbortAgrees(b, d, id);
    var (b', d') := (StartBooks(b, id, {}, env), Serve.StartOne(asks, m, d, id, chance));
    if env.start(id).StartFails? {
      assert b' == OffBooks(b, Aborts(b.s, id), id) && d' == Serve.Abort(d, id);
    } else {
      var phase := InitialPhase(env.start(id));
      PhaseAgrees(cfg, b.s, id, phase);
      var (s', r) := UpdatePhase(b.s, id, phase);
      assert d' == Serve.Follow(d, id, Serve.Started(asks[id], id, m, chance.restored(id)));
      if r.PhaseError? {
        assert b' == OffBooks(b, Aborts(b.s, id), id) && d' == Serve.Abort(d, id);
      } else {
        assert b'.s == d'.s && d'.done == d.done && d'.failed == d.failed;
      }
    }
  }

  // ---- Several requests ------------------------------------------------------------------------------

  lemma {:induction false} StartsFromFirst(b: Books, ids: seq<RequestId>, env: Environment)
    requires ids != []
    ensures StartAllBooks(b, ids, {}, env) == StartAllBooks(StartBooks(b, ids[0], {}, env), ids[1..], {}, env)
    decreases |ids|
  {
    hide StartBooks;
    if |ids| > 1 {
      StartsFromFirst(b, ids[..|ids| - 1], env);
      assert ids[..|ids| - 1][1..] == ids[1..][..|ids[1..]| - 1] && Last(ids[1..]) == Last(ids);
    } else {
      assert ids[..0] == [] && ids[1..] == [];
      assert StartAllBooks(b, ids[..|ids| - 1], {}, env) == b;
    }
  }

  lemma {:induction false} FollowsFromFirst(b: Books, results: seq<StepResult>, drafted: bool, env: Environment)
    requires results != []
    ensures FollowAllBooks(b, results, drafted, env) == FollowAllBooks(FollowBooks(b, results[0], drafted, env), results[1..], drafted, env)
    decreases |results|
  {
    hide FollowBooks;
    if |results| > 1 {
      FollowsFromFirst(b, results[..|results| - 1], drafted, env);
      assert results[..|results| - 1][1..] == results[1..][..|results[1..]| - 1] && Last(results[1..]) == Last(results);
    } else {
      assert results[..0] == [] && results[1..] == [];
      assert FollowAllBooks(b, results[..|results| - 1], drafted, env) == b;
    }
  }

  lemma {:induction false} FollowsTogether(b: Books, r1: seq<StepResult>, r2: seq<StepResult>, drafted: bool, env: Environment)
    ensures FollowAllBooks(b, r1 + r2, drafted, env) == FollowAllBooks(FollowAllBooks(b, r1, drafted, env), r2, drafted, env)
    decreases |r2|
  {
    hide FollowBooks;
    if r2 == [] {
      assert r1 + r2 == r1;
    } else {
      FollowsTogether(b, r1, r2[..|r2| - 1], drafted, env);
      assert (r1 + r2)[..|r1 + r2| - 1] == r1 + r2[..|r2| - 1] && Last(r1 + r2) == Last(r2);
    }
  }

  /** In order, and with nobody active told yet. */
  lemma ServedInOrder(cfg: Config, asks: Serve.Asks, m: Serve.Models, b: Books, d: Serve.Served, starting: set<RequestId>, id: RequestId)
    requires Same(b, d) && Serve.ServedOk(cfg, asks, m, d, starting) && id in IdSet(d.s.active)
    ensures InOrder(cfg, b) && id !in d.done.Keys + d.failed
  {
    hide SchedulerOk, Serve.EntriesOk, IdSet;
  }

  lemma {:induction false} StartsAgree(cfg: Config, asks: Serve.Asks, m: Serve.Models, b: Books, d: Serve.Served, ids: seq<RequestId>,
                                       chance: Serve.Chance, env: Environment)
    requires Same(b, d) && Serve.ServedOk(cfg, asks, m, d, Elements(ids)) && Distinct(ids)
    requires (forall id :: Smooth(env, id)) && forall id :: StartAsExecuted(asks, m, chance, env, id)
    ensures Same(StartAllBooks(b, ids, {}, env), Serve.StartAll(asks, m, d, ids, chance))
    ensures Serve.ServedOk(cfg, asks, m, Serve.StartAll(asks, m, d, ids, chance), {})
    decreases |ids|
  {
    hide Same, Serve.ServedOk, StartBooks, Serve.StartOne, Smooth, StartAsExecuted, Serve.Work, IdSet;
    Serve.StartAllKeeps(cfg, asks, m, d, ids, chance);
    if ids != [] {
      StartsFromFirst(b, ids, env);
      assert ids[0] in Elements(ids);
      StartingActive(cfg, asks, m, d, Elements(ids), ids[0]);
      ServedInOrder(cfg, asks, m, b, d, Elements(ids), ids[0]);
      assert b.s == d.s by { SameScheduler(b, d); }
      StartAgrees(cfg, asks, m, b, d, ids[0], chance, env);
      Serve.StartOneKeeps(cfg, asks, m, d, ids[0], Elements(ids), chance);
      Serve.RestElements(ids);
      StartsAgree(cfg, asks, m, StartBooks(b, ids[0], {}, env), Serve.StartOne(asks, m, d, ids[0], chance), ids[1..], chance, env);
    }
  }

  lemma SameScheduler(b: Books, d: Serve.Served)
    requires Same(b, d)
    ensures b.s == d.s
  {
  }

  lemma StartingActive(cfg: Config, asks: Serve.Asks, m: Serve.Models, d: Serve.Served, starting: set<RequestId>, id: RequestId)
    requires Serve.ServedOk(cfg, asks, m, d, starting) && id in starting
    ensures id in IdSet(d.s.active)
  {
    hide SchedulerOk, Serve.EntriesOk, Serve.EachOnce;
  }

  /** The results of the cancelled, or of the other, scheduled requests, in the order of the decision. */
  ghost function Replies(m: Serve.Models, d: Serve.Served, chance: Serve.Chance, grants: seq<Grant>, cancelled: bool): seq<StepResult>
    decreases |grants|
  {
    if grants == [] then []
    else
      (if (grants[0].id in chance.cancelled) == cancelled then [StepResult(grants[0].id, Reply(m, d, chance, grants[0]))] else []) +
      Replies(m, d, chance, grants[1..], cancelled)
  }

  /** The executions of the requests still to have their turn are those of the start of the round. */
  ghost predicate StillToStep(d: Serve.Served, first: Serve.Served, grants: seq<Grant>, chance: Serve.Chance, cancelled: bool) {
    forall i :: 0 <= i < |grants| && (grants[i].id in chance.cancelled) == cancelled ==>
      && grants[i].id in IdSet(d.s.active)
      && grants[i].id in d.running && grants[i].id in first.running && d.running[grants[i].id] == first.running[grants[i].id]
  }

  lemma {:induction false} StepsAgree(cfg: Config, asks: Serve.Asks, m: Serve.Models, b: Books, d: Serve.Served, first: Serve.Served,
                                      grants: seq<Grant>, chance: Serve.Chance, env: Environment, cancelled: bool)
    requires Same(b, d) && Serve.ServedOk(cfg, asks, m, d, {}) && Serve.Granting(grants)
    requires StillToStep(d, first, grants, chance, cancelled) && forall id :: Smooth(env, id)
    ensures Same(FollowAllBooks(b, Replies(m, first, chance, grants, cancelled), m.draft.Some?, env),
                 Serve.StepAll(m, d, grants, chance, cancelled))
    ensures Serve.ServedOk(cfg, asks, m, Serve.StepAll(m, d, grants, chance, cancelled), {})
    decreases |grants|
  {
    hide Same, Serve.ServedOk, FollowBooks, Serve.StepOne, Smooth, Serve.Work, IdSet, Reply;
    if grants != [] {
      var g, rest := grants[0], grants[1..];
      Serve.RestGranting(grants);
      var results := Replies(m, first, chance, grants, cancelled);
      if (g.id in chance.cancelled) == cancelled {
        FollowsFromFirst(b, results, m.draft.Some?, env);
        assert results[1..] == Replies(m, first, chance, rest, cancelled);
        ServedInOrder(cfg, asks, m, b, d, {}, g.id);
        SameScheduler(b, d);
        SameReply(m, d, first, chance, g);
        StepAgrees(cfg, m, b, d, g, chance, env);
        Serve.StepOneKeeps(cfg, asks, m, d, g, chance);
        assert {} - {g.id} == {};
        var next := Serve.StepOne(m, d, g, chance);
        OthersStillToStep(m, d, first, grants, chance, cancelled);
        StepsAgree(cfg, asks, m, FollowBooks(b, results[0], m.draft.Some?, env), next, first, rest, chance, env, cancelled);
      } else {
        assert results == Replies(m, first, chance, rest, cancelled);
        assert forall i :: 0 <= i < |rest| ==> rest[i] == grants[i + 1];
        StepsAgree(cfg, asks, m, b, d, first, rest, chance, env, cancelled);
      }
    }
  }

  lemma SameReply(m: Serve.Models, d: Serve.Served, first: Serve.Served, chance: Serve.Chance, g: Grant)
    requires g.id in d.running && g.id in first.running && d.running[g.id] == first.running[g.id]
    ensures Reply(m, d, chance, g) == Reply(m, first, chance, g)
  {
    hide Serve.Executing, Serve.Step;
  }

  lemma OthersStillToStep(m: Serve.Models, d: Serve.Served, first: Serve.Served, grants: seq<Grant>, chance: Serve.Chance, cancelled: bool)
    requires grants != [] && Serve.Granting(grants) && StillToStep(d, first, grants, chance, cancelled)
    requires IdSet(d.s.active) - {grants[0].id} <= IdSet(Serve.StepOne(m, d, grants[0], chance).s.active)
    ensures StillToStep(Serve.StepOne(m, d, grants[0], chance), first, grants[1..], chance, cancelled)
  {
    OnlyOwnRuns(m, d, grants[0], chance);
    hide IdSet, Serve.StepOne;
    forall i | 0 <= i < |grants| - 1 ensures grants[1..][i] == grants[i + 1] && grants[i + 1].id != grants[0].id { }
  }

  lemma OnlyOwnRuns(m: Serve.Models, d: Serve.Served, g: Grant, chance: Serve.Chance)
    ensures forall id :: id != g.id && id in d.running ==>
              id in Serve.StepOne(m, d, g, chance).running && Serve.StepOne(m, d, g, chance).running[id] == d.running[id]
  {
    hide UpdatePhase, Terminate, ReleasePrefixFlight, RemoveActive, Serve.Executing, Serve.Step;
  }

  // ---- The results of an execution -------------------------------------------------------------------

  lemma {:induction false} OneMoreReply(m: Serve.Models, d: Serve.Served, chance: Serve.Chance, grants: seq<Grant>, cancelled: bool)
    requires grants != []
    ensures var g := Last(grants);
            Replies(m, d, chance, grants, cancelled) ==
            Replies(m, d, chance, grants[..|grants| - 1], cancelled) +
            (if (g.id in chance.cancelled) == cancelled then [StepResult(g.id, Reply(m, d, chance, g))] else [])
    decreases |grants|
  {
    hide Reply;
    var before := grants[..|grants| - 1];
    if before == [] {
      assert grants[1..] == [];
    } else {
      OneMoreReply(m, d, chance, grants[1..], cancelled);
      assert before[1..] == grants[1..][..|grants[1..]| - 1] && Last(grants[1..]) == Last(grants) && before[0] == grants[0];
    }
  }

  ghost predicate AllExecute(stages: Stages, grants: seq<Grant>) {
    forall i :: 0 <= i < |grants| ==> grants[i].id in stages && stages[grants[i].id] == Executing
  }

  /** Those whose clients are gone have their results first. */
  lemma {:induction false} CancelledFirst(m: Serve.Models, d: Serve.Served, chance: Serve.Chance, stages: Stages, grants: seq<Grant>)
    requires Distinct(GrantIds(grants)) && AllExecute(stages, grants)
    ensures Prepare(stages, grants, chance.cancelled).results == Replies(m, d, chance, grants, true)
    decreases |grants|
  {
    if grants != [] {
      var before := grants[..|grants| - 1];
      BeforeDistinct(grants);
      CancelledFirst(m, d, chance, stages, before);
      OneMoreReply(m, d, chance, grants, true);
      PrepareExact(stages, before, chance.cancelled);
      assert grants[|grants| - 1] == Last(grants);
    }
  }

  /** The others follow, each with the reply that is its own. */
  lemma {:induction false} OthersFollow(m: Serve.Models, d: Serve.Served, chance: Serve.Chance, stages: Stages, grants: seq<Grant>,
                                        run: RunReport, n: nat)
    requires Distinct(GrantIds(grants)) && AllExecute(stages, grants) && n <= |grants|
    requires forall i :: 0 <= i < |grants| ==> ReplyTo(stages, grants, chance.cancelled, run, i).phase == Reply(m, d, chance, grants[i])
    ensures var (p, k) := (Prepare(stages, grants, chance.cancelled), RunnableCount(stages, grants, chance.cancelled, n));
            && k <= |p.batch| && (n == |grants| ==> k == |p.batch|)
            && SettleBatch(p, run, k).1 == p.results + Replies(m, d, chance, grants[..n], false)
    decreases n
  {
    hide Reply, Prepare, Settle, ReplyTo;
    var p := Prepare(stages, grants, chance.cancelled);
    if n == 0 {
      assert Replies(m, d, chance, grants[..0], false) == [];
      if grants != [] { BatchInOrder(stages, grants, chance.cancelled, 0); } else { NothingPrepared(stages, chance.cancelled); }
    } else {
      OthersFollow(m, d, chance, stages, grants, run, n - 1);
      BatchInOrder(stages, grants, chance.cancelled, n - 1);
      assert grants[..n][..n - 1] == grants[..n - 1] && Last(grants[..n]) == grants[n - 1];
      OneMoreReply(m, d, chance, grants[..n], false);
      if grants[n - 1].id !in chance.cancelled {
        ReplyIsSettled(stages, grants, chance.cancelled, run, n - 1);
      }
    }
  }

  lemma ReplyIsSettled(stages: Stages, grants: seq<Grant>, closed: set<RequestId>, run: RunReport, n: nat)
    requires n < |grants| && Runnable(stages, grants[n].id, closed)
    ensures var (k, count) := (RunnableCount(stages, grants, closed, n), RunnableCount(stages, grants, closed, |grants|));
            k < count && ReplyTo(stages, grants, closed, run, n).phase == Settle(run, count, k).phase
  {
    CountBelow(stages, grants, closed, n, |grants|);
  }

  lemma NothingPrepared(stages: Stages, closed: set<RequestId>)
    ensures Prepare(stages, [], closed) == Prepared(stages, [], [])
  {
  }

  /** The results of an execution are those of the cancelled requests and then those of the others. */
  lemma ResultsAreReplies(m: Serve.Models, d: Serve.Served, chance: Serve.Chance, stages: Stages, grants: seq<Grant>, run: RunReport)
    requires Distinct(GrantIds(grants)) && AllExecute(stages, grants)
    requires forall i :: 0 <= i < |grants| ==> ReplyTo(stages, grants, chance.cancelled, run, i).phase == Reply(m, d, chance, grants[i])
    ensures Advance(stages, grants, chance.cancelled, run).1 == Replies(m, d, chance, grants, true) + Replies(m, d, chance, grants, false)
  {
    hide Reply, Prepare, SettleBatch, Replies;
    CancelledFirst(m, d, chance, stages, grants);
    OthersFollow(m, d, chance, stages, grants, run, |grants|);
    assert grants[..|grants|] == grants;
  }

  // ---- A round ----------------------------------------------------------------------------------------

  /** The worker's books and the requests it serves: the scheduler is the same, whatever is active executes,
      and everybody done or failed was told. */
  ghost predicate Serves(cfg: Config, asks: Serve.Asks, m: Serve.Models, b: Books, d: Serve.Served) {
    Same(b, d) && ActiveExecutes(b) && Serve.ServedOk(cfg, asks, m, d, {})
  }

  lemma SameWith(b: Books, d: Serve.Served, s: State)
    requires Same(b, d)
    ensures Same(b.(s := s), d.(s := s))
  {
  }

  /** The starts of the round. */
  lemma FirstHalfAgrees(cfg: Config, asks: Serve.Asks, m: Serve.Models, b: Books, d: Serve.Served, chance: Serve.Chance, env: Environment)
    requires Serves(cfg, asks, m, b, d) && cfg.pageTokens > 0
    requires (forall id :: Smooth(env, id)) && forall id :: StartAsExecuted(asks, m, chance, env, id)
    ensures var (admitted, ids) := Admit(cfg, d.s);
            Serves(cfg, asks, m, StartedBooks(cfg, b, {}, env), Serve.StartAll(asks, m, d.(s := admitted), ids, chance))
  {
    hide Serve.ServedOk, Same, Admit, StartAllBooks, Serve.StartAll, Smooth, StartAsExecuted, ActiveExecutes, Serve.Work, StartsMean;
    SameScheduler(b, d);
    ServedSchedulerOk(cfg, asks, m, b, d);
    Serve.AdmittedKeeps(cfg, asks, m, d);
    var (admitted, ids) := Admit(cfg, d.s);
    SameWith(b, d, admitted);
    StartsAgree(cfg, asks, m, b.(s := admitted), d.(s := admitted), ids, chance, env);
    StartsOfRound(cfg, b, {}, env);
  }

  lemma ServedSchedulerOk(cfg: Config, asks: Serve.Asks, m: Serve.Models, b: Books, d: Serve.Served)
    requires Same(b, d) && Serve.ServedOk(cfg, asks, m, d, {})
    ensures InOrder(cfg, b)
  {
    hide SchedulerOk, Serve.EntriesOk, Serve.EachOnce;
  }

  /** The decision and its execution. */
  lemma SecondHalfAgrees(cfg: Config, asks: Serve.Asks, m: Serve.Models, b1: Books, d1: Serve.Served, chance: Serve.Chance, env: Environment)
    requires Serves(cfg, asks, m, b1, d1) && env.closed == chance.cancelled && forall id :: Smooth(env, id)
    requires var grants := Decide(cfg, b1.s).1;
             forall n :: 0 <= n < |grants| ==> ReplyTo(b1.stages, grants, env.closed, env.run, n).phase == Reply(m, d1, chance, grants[n])
    ensures var ((decided, results), (s, grants)) := (DecidedBooks(cfg, b1, env), Decide(cfg, d1.s));
            var d' := Serve.StepAll(m, Serve.StepAll(m, d1.(s := s), grants, chance, true), grants, chance, false);
            Same(FollowAllBooks(decided, results, m.draft.Some?, env), d') && Serve.ServedOk(cfg, asks, m, d', {})
  {
    hide Serve.ServedOk, Same, Decide, Serve.StepAll, FollowAllBooks, Advance, Replies, Smooth, ReplyTo, Reply, ActiveExecutes, IdSet, InOrder,
      StillToStep, Serve.Work, Serve.Granting;
    var (s, grants) := Decide(cfg, d1.s);
    SameScheduler(b1, d1);
    ServedSchedulerOk(cfg, asks, m, b1, d1);
    Serve.DecisionGrants(cfg, asks, m, d1);
    Serve.DecidedKeeps(cfg, asks, m, d1);
    GrantsAreActive(cfg, b1);
    var (decided, results) := DecidedBooks(cfg, b1, env);
    ResultsAreReplies(m, d1, chance, b1.stages, grants, env.run);
    var before := d1.(s := s);
    SameWith(b1, d1, s);
    SameOutcomes(b1.(s := s), decided, before);
    DecidedInOrder(cfg, d1.s);
    ReadyToStep(cfg, asks, m, before, d1, grants, chance, true);
    StepsAgree(cfg, asks, m, decided, before, d1, grants, chance, env, true);
    var first := FollowAllBooks(decided, Replies(m, d1, chance, grants, true), m.draft.Some?, env);
    var middle := Serve.StepAll(m, before, grants, chance, true);
    ReadyToStep(cfg, asks, m, before, d1, grants, chance, false);
    CancelledStepsKeep(cfg, asks, m, before, d1, grants, chance, grants);
    StepsAgree(cfg, asks, m, first, middle, d1, grants, chance, env, false);
    FollowsTogether(decided, Replies(m, d1, chance, grants, true), Replies(m, d1, chance, grants, false), m.draft.Some?, env);
  }

  lemma SameOutcomes(b: Books, b': Books, d: Serve.Served)
    requires Same(b, d) && b'.s == b.s && b'.reported == b.reported
    ensures Same(b', d)
  {
  }

  /** Every active request has an execution. */
  lemma ReadyToStep(cfg: Config, asks: Serve.Asks, m: Serve.Models, d: Serve.Served, first: Serve.Served, grants: seq<Grant>, chance: Serve.Chance,
                    cancelled: bool)
    requires Serve.ServedOk(cfg, asks, m, d, {}) && d.running == first.running
    requires forall i :: 0 <= i < |grants| ==> grants[i].id in IdSet(d.s.active)
    ensures StillToStep(d, first, grants, chance, cancelled)
  {
    hide SchedulerOk, Serve.EachOnce, Serve.OnTheWay, Serve.Fits, Serve.Shown;
    forall i | 0 <= i < |grants| ensures grants[i].id in d.running {
      var k :| 0 <= k < |d.s.active| && d.s.active[k].id == grants[i].id;
      assert Serve.EntryOk(asks, m, d.s.active[k], d.running, {});
    }
  }

  /** The turns of the cancelled requests leave the executions of the others alone. */
  lemma {:induction false} CancelledStepsKeep(cfg: Config, asks: Serve.Asks, m: Serve.Models, d: Serve.Served, first: Serve.Served,
                                              grants: seq<Grant>,
                                              chance: Serve.Chance, all: seq<Grant>)
    requires Serve.ServedOk(cfg, asks, m, d, {}) && Serve.Granting(grants) && StillToStep(d, first, grants, chance, true)
    requires StillToStep(d, first, all, chance, false)
    ensures StillToStep(Serve.StepAll(m, d, grants, chance, true), first, all, chance, false)
    decreases |grants|
  {
    hide Serve.ServedOk, Serve.StepOne, Serve.Work, StillToStep, IdSet;
    if grants != [] {
      Serve.RestGranting(grants);
      if grants[0].id in chance.cancelled {
        StepperActive(d, first, grants, chance);
        Serve.StepOneKeeps(cfg, asks, m, d, grants[0], chance);
        assert {} - {grants[0].id} == {};
        OthersStillToStep(m, d, first, grants, chance, true);
        AllStillToStep(m, d, first, grants[0], all, chance);
        CancelledStepsKeep(cfg, asks, m, Serve.StepOne(m, d, grants[0], chance), first, grants[1..], chance, all);
      } else {
        RestStillToStep(d, first, grants, chance);
        CancelledStepsKeep(cfg, asks, m, d, first, grants[1..], chance, all);
      }
    }
  }

  lemma StepperActive(d: Serve.Served, first: Serve.Served, grants: seq<Grant>, chance: Serve.Chance)
    requires StillToStep(d, first, grants, chance, true) && grants != [] && grants[0].id in chance.cancelled
    ensures grants[0].id in IdSet(d.s.active)
  {
    hide IdSet;
  }

  lemma RestStillToStep(d: Serve.Served, first: Serve.Served, grants: seq<Grant>, chance: Serve.Chance)
    requires StillToStep(d, first, grants, chance, true) && grants != []
    ensures StillToStep(d, first, grants[1..], chance, true)
  {
    hide IdSet;
    assert forall i :: 0 <= i < |grants| - 1 ==> grants[1..][i] == grants[i + 1];
  }

  lemma AllStillToStep(m: Serve.Models, d: Serve.Served, first: Serve.Served, g: Grant, all: seq<Grant>, chance: Serve.Chance)
    requires StillToStep(d, first, all, chance, false) && g.id in chance.cancelled
    requires IdSet(d.s.active) - {g.id} <= IdSet(Serve.StepOne(m, d, g, chance).s.active)
    ensures StillToStep(Serve.StepOne(m, d, g, chance), first, all, chance, false)
  {
    OnlyOwnRuns(m, d, g, chance);
    hide IdSet, Serve.StepOne;
  }

  /** When the world answers as the executions go, the worker's round is the round that serves everybody. */
  lemma RoundAgrees(cfg: Config, asks: Serve.Asks, m: Serve.Models, b: Books, d: Serve.Served, chance: Serve.Chance, env: Environment)
    requires Serves(cfg, asks, m, b, d) && cfg.pageTokens > 0 && AnswersAsExecuted(cfg, asks, m, b, d, chance, env)
    ensures Serves(cfg, asks, m, RoundBooks(cfg, m.draft.Some?, b, {}, env), Serve.Round(cfg, asks, m, d, chance))
  {
    hide Serve.ServedOk, Same, Admit, Decide, StartedBooks, Serve.StartAll, Serve.StepAll, FollowAllBooks, DecidedBooks, Smooth, StartAsExecuted,
      ReplyTo, Reply, ActiveExecutes, InOrder, StartsMean, StepsMean;
    FirstHalfAgrees(cfg, asks, m, b, d, chance, env);
    var (admitted, ids) := Admit(cfg, d.s);
    var (b1, d1) := (StartedBooks(cfg, b, {}, env), Serve.StartAll(asks, m, d.(s := admitted), ids, chance));
    SameScheduler(b1, d1);
    SecondHalfAgrees(cfg, asks, m, b1, d1, chance, env);
    ServedSchedulerOk(cfg, asks, m, b, d);
    RoundMeans(cfg, m.draft.Some?, b, {}, env);
  }

  // ---- Such worlds exist -------------------------------------------------------------------------------

  /** The execution's report on the runnable requests. */
  ghost function Reports(m: Serve.Models, d: Serve.Served, chance: Serve.Chance, stages: Stages, grants: seq<Grant>): (reports: seq<StepReport>)
    ensures |reports| == RunnableCount(stages, grants, chance.cancelled, |grants|)
  {
    if grants == [] then []
    else
      var before := grants[..|grants| - 1];
      CountPrefix(stages, grants, chance.cancelled, |before|, |before|);
      var reply := Reply(m, d, chance, Last(grants));
      Reports(m, d, chance, stages, before) +
      (if Runnable(stages, Last(grants).id, chance.cancelled)
       then [StepReport(if reply.Some? then reply.value else FinishedPhase, reply.Some?)] else [])
  }

  lemma {:induction false} ReportsAnswer(m: Serve.Models, d: Serve.Served, chance: Serve.Chance, stages: Stages, grants: seq<Grant>, n: nat)
    requires n < |grants| && Runnable(stages, grants[n].id, chance.cancelled)
    ensures var (reports, k) := (Reports(m, d, chance, stages, grants), RunnableCount(stages, grants, chance.cancelled, n));
            && k < |reports| && reports[k].sent == Reply(m, d, chance, grants[n]).Some?
            && (reports[k].sent ==> reports[k].phase == Reply(m, d, chance, grants[n]).value)
    decreases |grants|
  {
    hide Reply;
    var before := grants[..|grants| - 1];
    CountBelow(stages, grants, chance.cancelled, n, |grants|);
    CountPrefix(stages, grants, chance.cancelled, |before|, n);
    CountPrefix(stages, grants, chance.cancelled, |before|, |before|);
    if n < |before| { ReportsAnswer(m, d, chance, stages, before, n); }
  }

  lemma {:induction false} StartsIgnoreRun(b: Books, ids: seq<RequestId>, env: Environment, run: RunReport)
    ensures StartAllBooks(b, ids, {}, env.(run := run)) == StartAllBooks(b, ids, {}, env)
    decreases |ids|
  {
    hide HandlePhase, Aborts;
    if ids != [] { StartsIgnoreRun(b, ids[..|ids| - 1], env, run); }
  }

  function StartOf(asks: Serve.Asks, m: Serve.Models, chance: Serve.Chance, id: RequestId): StartReport {
    if id in chance.refused || id !in asks || asks[id].input == [] then StartFails
    else
      var phase := Serve.Reported(Serve.Started(asks[id], id, m, chance.restored(id)).e.phase);
      if phase.PrefillPhase? then StartsPrefill(phase.remaining) else StartsDecode
  }

  /** However the round goes for its requests, some world answers so. */
  lemma SomeWorldAnswers(cfg: Config, asks: Serve.Asks, m: Serve.Models, b: Books, d: Serve.Served, chance: Serve.Chance) returns (env: Environment)
    requires Serves(cfg, asks, m, b, d) && cfg.pageTokens > 0
    ensures AnswersAsExecuted(cfg, asks, m, b, d, chance, env)
  {
    hide Serve.ServedOk, Same, Admit, Decide, Serve.StartAll, ReplyTo, Reply, ActiveExecutes, StartAllBooks;
    var calm := Environment((id: RequestId) => StartOf(asks, m, chance, id), (id: RequestId) => true, chance.cancelled, RunFails,
                            (id: RequestId) => FinishReport(true, true, true));
    var b1 := StartedBooks(cfg, b, {}, calm);
    var (admitted, ids) := Admit(cfg, d.s);
    var d1 := Serve.StartAll(asks, m, d.(s := admitted), ids, chance);
    var grants := Decide(cfg, b1.s).1;
    var reports := Reports(m, d1, chance, b1.stages, grants);
    env := calm.(run := RunSteps(reports));
    SameScheduler(b, d);
    StartsIgnoreRun(b.(s := admitted), ids, calm, env.run);
    assert StartedBooks(cfg, b, {}, env) == b1;
    FirstHalfAgrees(cfg, asks, m, b, d, chance, calm);
    ServedSchedulerOk(cfg, asks, m, b1, d1);
    GrantsAreActive(cfg, b1);
    forall n | 0 <= n < |grants| ensures ReplyTo(b1.stages, grants, env.closed, env.run, n).phase == Reply(m, d1, chance, grants[n]) {
      ReportedReply(m, d1, chance, b1.stages, grants, n);
    }
  }

  lemma ReportedReply(m: Serve.Models, d: Serve.Served, chance: Serve.Chance, stages: Stages, grants: seq<Grant>, n: nat)
    requires n < |grants| && grants[n].id in stages && stages[grants[n].id] == Executing
    ensures ReplyTo(stages, grants, chance.cancelled, RunSteps(Reports(m, d, chance, stages, grants)), n).phase == Reply(m, d, chance, grants[n])
  {
    hide Reports;
    if grants[n].id !in chance.cancelled { ReportsAnswer(m, d, chance, stages, grants, n); }
  }

  // ---- Runs --------------------------------------------------------------------------------------------

  /** The worker's books round after round, in worlds that answer as the executions go. */
  ghost predicate IsWorkerRun(cfg: Config, asks: Serve.Asks, m: Serve.Models, books: seq<Books>, states: seq<Serve.Served>,
                              chances: seq<Serve.Chance>, envs: seq<Environment>) {
    && cfg.pageTokens > 0 && |books| == |states| == |chances| + 1 == |envs| + 1
    && Serve.IsServedRun(cfg, asks, m, states, chances)
    && forall i :: 0 <= i < |envs| ==> RunRound(cfg, asks, m, books, states, chances, envs, i)
  }

  ghost predicate RunRound(cfg: Config, asks: Serve.Asks, m: Serve.Models, books: seq<Books>, states: seq<Serve.Served>,
                           chances: seq<Serve.Chance>, envs: seq<Environment>, i: nat)
    requires cfg.pageTokens > 0 && |books| == |states| == |chances| + 1 == |envs| + 1 && i < |envs|
  {
    && AnswersAsExecuted(cfg, asks, m, books[i], states[i], chances[i], envs[i])
    && books[i + 1] == RoundBooks(cfg, m.draft.Some?, books[i], {}, envs[i])
  }

  lemma {:induction false} RunsAgree(cfg: Config, asks: Serve.Asks, m: Serve.Models, books: seq<Books>, states: seq<Serve.Served>,
                                     chances: seq<Serve.Chance>, envs: seq<Environment>, n: nat)
    requires IsWorkerRun(cfg, asks, m, books, states, chances, envs) && Serves(cfg, asks, m, books[0], states[0]) && n <= |envs|
    ensures Serves(cfg, asks, m, books[n], states[n])
    decreases n
  {
    hide Serves, AnswersAsExecuted, RoundBooks, Serve.Round;
    if n > 0 {
      RunsAgree(cfg, asks, m, books, states, chances, envs, n - 1);
      assert RunRound(cfg, asks, m, books, states, chances, envs, n - 1);
      assert Serve.RoundTaken(cfg, asks, m, states, chances, n - 1);
      RoundAgrees(cfg, asks, m, books[n - 1], states[n - 1], chances[n - 1], envs[n - 1]);
    }
  }

  /** The worker runs out of requests: after as many of its own rounds as there is work its queue and its active
      list are empty, and every client was told once, of what target-only decoding gives or of a failure. */
  lemma WorkerServesEverybody(cfg: Config, asks: Serve.Asks, m: Serve.Models, books: seq<Books>, states: seq<Serve.Served>,
                              chances: seq<Serve.Chance>, envs: seq<Environment>, n: nat)
    requires IsWorkerRun(cfg, asks, m, books, states, chances, envs) && Serves(cfg, asks, m, books[0], states[0])
    requires cfg.maxBatchedTokens > 0 && Serve.Work(books[0].s) <= n <= |envs|
    ensures books[n].s.queue == [] && books[n].s.active == []
    ensures forall id :: id in asks ==> books[n].reported[id] == 1 && (id in states[n].done || id in states[n].failed)
    ensures forall id :: id in states[n].done ==> id in asks && states[n].done[id] == Serve.Wanted(asks[id], m.target)
    ensures forall id :: id in states[n].failed ==> id in states[0].failed || Serve.FailedIn(chances, n, id)
  {
    hide AnswersAsExecuted, RoundBooks, Serve.Round, Serve.Work, Serve.Wanted, Serve.ServedOk, ActiveExecutes, Serve.IsServedRun, Serve.FailedIn;
    RunsAgree(cfg, asks, m, books, states, chances, envs, n);
    SameScheduler(books[0], states[0]);
    Serve.EveryRequestEnds(cfg, asks, m, states, chances, n);
  }
}
