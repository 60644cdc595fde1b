/** The manager of request lifecycles: which stage each accepted request is in. */
module RequestManagerObject {
  import opened Common
  import opened SchedulerSpec
  import opened SchedulerObject
  import opened WorkerLedgers
  import opened ModelExecutorObject

  /** One request's share of a model execution: its phase, and whether the client took the output. */
  datatype StepReport = StepReport(phase: GenerationPhase, sent: bool)

  datatype RunReport = RunFails | RunSteps(steps: seq<StepReport>)

  /** No phase stands for an error. */
  datatype StepResult = StepResult(id: RequestId, phase: Option<GenerationPhase>)

  // ---- Advancing a batch, on values ------------------------------------------------------------

  /** The stages without the batch, the results so far, and the batch. */
  datatype Prepared = Prepared(stages: Stages, results: seq<StepResult>, batch: seq<RequestId>)

  function Prepare(stages: Stages, grants: seq<Grant>, closed: set<RequestId>): Prepared {
    if grants == [] then Prepared(stages, [], [])
    else
      var p := Prepare(stages, grants[..|grants| - 1], closed);
      var id := Last(grants).id;
      if id !in p.stages || p.stages[id] != Executing then p.(results := p.results + [StepResult(id, None)])
      else if id in closed then p.(stages := p.stages[id := Cancelled], results := p.results + [StepResult(id, None)])
      else p.(stages := p.stages - {id}, batch := p.batch + [id])
  }

  /** How the model execution leaves one request of the batch. */
  datatype Settlement = Settlement(stage: Stage, phase: Option<GenerationPhase>)

  /** Every request fails unless the execution reports one step for each. */
  function Settle(run: RunReport, count: nat, k: nat): Settlement
    requires k < count
  {
    if run.RunSteps? && |run.steps| == count then
      if run.steps[k].sent then Settlement(Executing, Some(run.steps[k].phase)) else Settlement(Cancelled, None)
    else Settlement(FailedToExecute, None)
  }

  /** The first n requests of the batch are back among the stages. */
  function SettleBatch(p: Prepared, run: RunReport, n: nat): (Stages, seq<StepResult>)
    requires n <= |p.batch|
  {
    if n == 0 then (p.stages, p.results)
    else
      var (stages, results) := SettleBatch(p, run, n - 1);
      var (id, settled) := (p.batch[n - 1], Settle(run, |p.batch|, n - 1));
      (stages[id := settled.stage], results + [StepResult(id, settled.phase)])
  }

  function Advance(stages: Stages, grants: seq<Grant>, closed: set<RequestId>, run: RunReport): (Stages, seq<StepResult>) {
    var p := Prepare(stages, grants, closed);
    SettleBatch(p, run, |p.batch|)
  }

  // ---- What advancing does ---------------------------------------------------------------------

  function GrantIds(grants: seq<Grant>): (ids: seq<RequestId>)
    ensures |ids| == |grants|
  {
    seq(|grants|, i requires 0 <= i < |grants| => grants[i].id)
  }

  function ResultIds(results: seq<StepResult>): (ids: seq<RequestId>)
    ensures |ids| == |results|
  {
    seq(|results|, i requires 0 <= i < |results| => results[i].id)
  }

  /** Distinct sequences without a common element. */
  ghost predicate Apart(a: seq<RequestId>, b: seq<RequestId>) {
    Distinct(a) && Distinct(b) && forall x :: x in a ==> x !in b
  }

  lemma {:induction false} PrepareExact(stages: Stages, grants: seq<Grant>, closed: set<RequestId>)
    requires Distinct(GrantIds(grants))
    ensures var p := Prepare(stages, grants, closed);
            && Apart(ResultIds(p.results), p.batch)
            && (forall id :: id in ResultIds(p.results) || id in p.batch <==> id in GrantIds(grants))
            && (forall id :: id in p.batch <==> id in GrantIds(grants) && id in stages && stages[id] == Executing && id !in closed)
            && (forall id :: id in p.stages <==> id in stages && id !in p.batch)
            && (forall id :: id in p.stages ==>
                  p.stages[id] == if id in GrantIds(grants) && stages[id] == Executing then Cancelled else stages[id])
            && (forall i :: 0 <= i < |p.results| ==> p.results[i].phase == None)
    decreases |grants|
  {
    if grants != [] {
      var before, id := grants[..|grants| - 1], Last(grants).id;
      assert GrantIds(grants) == GrantIds(before) + [id];
      assert id !in GrantIds(before) by {
        forall i | 0 <= i < |before| ensures GrantIds(before)[i] != id { assert GrantIds(grants)[i] != GrantIds(grants)[|before|]; }
      }
      assert Distinct(GrantIds(before)) by {
        forall i, j | 0 <= i < j < |before| ensures GrantIds(before)[i] != GrantIds(before)[j] {
          assert GrantIds(grants)[i] != GrantIds(grants)[j];
        }
      }
      PrepareExact(stages, before, closed);
      var q, p := Prepare(stages, before, closed), Prepare(stages, grants, closed);
      assert id in q.stages <==> id in stages;
      if p.batch == q.batch {
        assert ResultIds(p.results) == ResultIds(q.results) + [id];
      }
    }
  }

  /** Every scheduled request has one result. A result with a phase belongs to a request that goes on
      executing; an error belongs to one that was not executing, or that is now failed or cancelled.
      Nobody else's stage changes. */
  ghost predicate Advanced(stages: Stages, grants: seq<Grant>, stages': Stages, results: seq<StepResult>) {
    && stages'.Keys == stages.Keys
    && Distinct(ResultIds(results)) && (forall id :: id in ResultIds(results) <==> id in GrantIds(grants))
    && (forall i :: 0 <= i < |results| ==> ResultFits(stages, stages', results[i]))
    && (forall id :: id in stages && (id !in GrantIds(grants) || stages[id] != Executing) ==> stages'[id] == stages[id])
  }

  ghost predicate ResultFits(stages: Stages, stages': Stages, r: StepResult)
    requires stages'.Keys == stages.Keys
  {
    if r.phase.Some? then r.id in stages && stages[r.id] == Executing && stages'[r.id] == Executing
    else r.id in stages && stages[r.id] == Executing ==> stages'[r.id] == FailedToExecute || stages'[r.id] == Cancelled
  }

  /** The stages and the results after the first n requests of the batch. */
  ghost predicate PartlySettled(p: Prepared, run: RunReport, n: nat, stages': Stages, results: seq<StepResult>)
    requires n <= |p.batch|
  {
    && |results| == |p.results| + n && results[..|p.results|] == p.results
    && (forall id :: id in stages' <==> id in p.stages || id in p.batch[..n])
    && (forall id :: id in p.stages ==> id in stages' && stages'[id] == p.stages[id])
    && (forall k :: 0 <= k < n ==> SettledAt(p, run, k, stages', results))
  }

  ghost predicate SettledAt(p: Prepared, run: RunReport, k: nat, stages': Stages, results: seq<StepResult>)
    requires k < |p.batch| && |results| > |p.results| + k
  {
    var settled := Settle(run, |p.batch|, k);
    && p.batch[k] in stages' && stages'[p.batch[k]] == settled.stage
    && results[|p.results| + k] == StepResult(p.batch[k], settled.phase)
  }

  lemma {:induction false} BatchSettles(p: Prepared, run: RunReport, n: nat)
    requires n <= |p.batch| && Distinct(p.batch) && (forall id :: id in p.batch ==> id !in p.stages)
    ensures var (stages', results) := SettleBatch(p, run, n);
            PartlySettled(p, run, n, stages', results)
    decreases n
  {
    hide Settle;
    if n > 0 {
      BatchSettles(p, run, n - 1);
      assert p.batch[..n] == p.batch[..n - 1] + [p.batch[n - 1]];
      var (before, earlier) := SettleBatch(p, run, n - 1);
      var (stages', results) := SettleBatch(p, run, n);
      assert results[..|p.results|] == earlier[..|p.results|];
      assert p.batch[n - 1] in p.batch;
      forall k | 0 <= k < n ensures SettledAt(p, run, k, stages', results) {
        if k < n - 1 { assert SettledAt(p, run, k, before, earlier) && p.batch[k] != p.batch[n - 1]; }
      }
    }
  }

  lemma AdvanceExact(stages: Stages, grants: seq<Grant>, closed: set<RequestId>, run: RunReport)
    requires Distinct(GrantIds(grants))
    ensures var (stages', results) := Advance(stages, grants, closed, run);
            && Advanced(stages, grants, stages', results)
            && (forall id :: id in GrantIds(grants) && id in stages && stages[id] == Executing && id in closed ==> stages'[id] == Cancelled)
            && (forall id :: id in GrantIds(grants) && id in stages && stages[id] == Executing && id !in closed && run.RunFails? ==>
                  stages'[id] == FailedToExecute)
  {
    hide Prepare, SettleBatch, Settle;
    PrepareExact(stages, grants, closed);
    var p := Prepare(stages, grants, closed);
    BatchSettles(p, run, |p.batch|);
    assert p.batch[..|p.batch|] == p.batch;
    var (stages', results) := Advance(stages, grants, closed, run);
    ResultsCover(p, run, stages', results);
    forall i | 0 <= i < |results| ensures ResultFits(stages, stages', results[i]) {
      if i < |p.results| {
        assert results[i] == results[..|p.results|][i] && ResultIds(p.results)[i] == results[i].id;
      } else {
        assert SettledAt(p, run, i - |p.results|, stages', results) && p.batch[i - |p.results|] in p.batch;
        SettlementFits(run, |p.batch|, i - |p.results|);
      }
    }
    forall id | id in p.batch && run.RunFails? ensures stages'[id] == FailedToExecute {
      var k :| 0 <= k < |p.batch| && p.batch[k] == id;
      assert SettledAt(p, run, k, stages', results);
      SettlementFits(run, |p.batch|, k);
    }
  }

  lemma SettlementFits(run: RunReport, count: nat, k: nat)
    requires k < count
    ensures var settled := Settle(run, count, k);
            && (if settled.phase.Some? then settled.stage == Executing else settled.stage == FailedToExecute || settled.stage == Cancelled)
            && (run.RunFails? ==> settled.stage == FailedToExecute)
  {
  }

  lemma ResultsCover(p: Prepared, run: RunReport, stages': Stages, results: seq<StepResult>)
    requires Apart(ResultIds(p.results), p.batch) && PartlySettled(p, run, |p.batch|, stages', results)
    ensures Distinct(ResultIds(results))
    ensures forall id :: id in ResultIds(results) <==> id in ResultIds(p.results) || id in p.batch
  {
    hide Settle;
    var a, b, ids := ResultIds(p.results), p.batch, ResultIds(results);
    forall i | 0 <= i < |ids| ensures ids[i] == (a + b)[i] {
      if i < |a| { assert results[i] == results[..|p.results|][i]; } else { assert SettledAt(p, run, i - |a|, stages', results); }
    }
    assert ids == a + b;
    forall i, j | 0 <= i < j < |ids| ensures ids[i] != ids[j] {
      if i < |a| && j >= |a| { assert ids[i] == a[i] && a[i] in a && ids[j] == b[j - |a|] && b[j - |a|] in b; }
    }
  }

  // ---- Which reply belongs to which request -------------------------------------------------------

  /** A scheduled request that is executing for a client that is still there. */
  predicate Runnable(stages: Stages, id: RequestId, closed: set<RequestId>) { id in stages && stages[id] == Executing && id !in closed }

  /** How many of the first n scheduled requests are runnable. */
  function RunnableCount(stages: Stages, grants: seq<Grant>, closed: set<RequestId>, n: nat): (k: nat)
    requires n <= |grants|
    ensures k <= n
  {
    if n == 0 then 0 else RunnableCount(stages, grants, closed, n - 1) + (if Runnable(stages, grants[n - 1].id, closed) then 1 else 0)
  }

  /** What the n-th scheduled request is told: the report of the execution that is its own, if the execution
      answered for every runnable request and the client took the output. */
  function ReplyTo(stages: Stages, grants: seq<Grant>, closed: set<RequestId>, run: RunReport, n: nat): Settlement
    requires n < |grants|
  {
    var id := grants[n].id;
    if id !in stages || stages[id] != Executing then Settlement(if id in stages then stages[id] else FailedToExecute, None)
    else if id in closed then Settlement(Cancelled, None)
    else if run.RunSteps? && |run.steps| == RunnableCount(stages, grants, closed, |grants|) then
      CountBelow(stages, grants, closed, n, |grants|);
      var step := run.steps[RunnableCount(stages, grants, closed, n)];
      if step.sent then Settlement(Executing, Some(step.phase)) else Settlement(Cancelled, None)
    else Settlement(FailedToExecute, None)
  }

  lemma {:induction false} CountBelow(stages: Stages, grants: seq<Grant>, closed: set<RequestId>, n: nat, m: nat)
    requires n < m <= |grants| && Runnable(stages, grants[n].id, closed)
    ensures RunnableCount(stages, grants, closed, n) < RunnableCount(stages, grants, closed, m)
    decreases m
  {
    if n + 1 < m { CountBelow(stages, grants, closed, n, m - 1); }
  }

  lemma {:induction false} CountPrefix(stages: Stages, grants: seq<Grant>, closed: set<RequestId>, m: nat, n: nat)
    requires n <= m <= |grants|
    ensures RunnableCount(stages, grants[..m], closed, n) == RunnableCount(stages, grants, closed, n)
    decreases n
  {
    if n > 0 { CountPrefix(stages, grants, closed, m, n - 1); }
  }

  /** The batch holds the runnable requests in the order of the decision; the others have an error already. */
  lemma {:induction false} BatchInOrder(stages: Stages, grants: seq<Grant>, closed: set<RequestId>, n: nat)
    requires Distinct(GrantIds(grants)) && n < |grants|
    ensures var p := Prepare(stages, grants, closed);
            && |p.batch| == RunnableCount(stages, grants, closed, |grants|)
            && (if Runnable(stages, grants[n].id, closed)
                then RunnableCount(stages, grants, closed, n) < |p.batch| && p.batch[RunnableCount(stages, grants, closed, n)] == grants[n].id
                else StepResult(grants[n].id, None) in p.results)
    decreases |grants|
  {
    var before, id := grants[..|grants| - 1], Last(grants).id;
    BeforeDistinct(grants);
    PrepareExact(stages, before, closed);
    CountPrefix(stages, grants, closed, |before|, |before|);
    CountPrefix(stages, grants, closed, |before|, Min(n, |before|));
    if before != [] { BatchInOrder(stages, before, closed, if n < |before| then n else 0); }
    var q, p := Prepare(stages, before, closed), Prepare(stages, grants, closed);
    assert id in q.stages <==> id in stages;
    assert id in stages ==> q.stages[id] == stages[id];
    assert grants[|grants| - 1].id == id;
    if n < |before| { assert grants[n] == before[n]; }
  }

  lemma BeforeDistinct(grants: seq<Grant>)
    requires Distinct(GrantIds(grants)) && grants != []
    ensures var before := grants[..|grants| - 1];
            Distinct(GrantIds(before)) && Last(grants).id !in GrantIds(before)
  {
    var before := grants[..|grants| - 1];
    forall i, j | 0 <= i < j < |before| ensures GrantIds(before)[i] != GrantIds(before)[j] {
      assert GrantIds(grants)[i] != GrantIds(grants)[j];
    }
    forall i | 0 <= i < |before| ensures GrantIds(before)[i] != Last(grants).id { assert GrantIds(grants)[i] != GrantIds(grants)[|before|]; }
  }

  /** Every scheduled request gets the reply that is its own. */
  lemma AdvanceReplies(stages: Stages, grants: seq<Grant>, closed: set<RequestId>, run: RunReport, n: nat)
    requires Distinct(GrantIds(grants)) && n < |grants|
    ensures var ((stages', results), reply) := (Advance(stages, grants, closed, run), ReplyTo(stages, grants, closed, run, n));
            && StepResult(grants[n].id, reply.phase) in results
            && (grants[n].id in stages ==> grants[n].id in stages' && stages'[grants[n].id] == reply.stage)
  {
    hide Prepare, SettleBatch, RunnableCount;
    PrepareExact(stages, grants, closed);
    BatchInOrder(stages, grants, closed, n);
    var p := Prepare(stages, grants, closed);
    BatchSettles(p, run, |p.batch|);
    var (stages', results) := Advance(stages, grants, closed, run);
    assert GrantIds(grants)[n] == grants[n].id;
    if Runnable(stages, grants[n].id, closed) {
      var k := RunnableCount(stages, grants, closed, n);
      assert SettledAt(p, run, k, stages', results);
    } else {
      var i :| 0 <= i < |p.results| && p.results[i] == StepResult(grants[n].id, None);
      assert results[..|p.results|][i] == results[i];
    }
  }

  class RequestManager {
    var stages: Stages

    constructor ()
      ensures stages == map[]
    {
      stages := map[];
    }

    /** Registers a request once the scheduler took it. */
    method AddRequest(scheduler: Scheduler, id: RequestId, input: seq<Token>, maxNew: nat, cached: nat) returns (ok: bool)
      requires scheduler.Valid() && |input| + maxNew > 0
      modifies this, scheduler.Footprint()
      ensures scheduler.Valid()
      ensures id in old(stages) ==> !ok && stages == old(stages) && scheduler.Value() == old(scheduler.Value())
      ensures id !in old(stages) ==>
                var (s, error) := Enqueue(scheduler.config, old(scheduler.Value()), id, input, maxNew, cached);
                && scheduler.Value() == s && (ok <==> error == None)
                && stages == if ok then old(stages)[id := Queued] else old(stages)
    {
      if id in stages { return false; }
      var error := scheduler.EnqueueRequest(id, input, maxNew, cached);
      if error.Some? { return false; }
      stages := stages[id := Queued];
      ok := true;
    }

    /** Starts a queued request on the model; any other request is put back unchanged. */
    method StartExecution(executor: ModelExecutor, id: RequestId, report: StartReport, ghost ids: set<RequestId>)
      returns (start: StartReport)
      requires executor.Holds(ids)
      modifies this, executor
      ensures id in old(stages) && old(stages)[id] == Queued ==>
                && start == (if id in ids then StartFails else report)
                && stages == old(stages)[id := if start.StartFails? then FailedToStart else Executing]
                && executor.Holds(if start.StartFails? then ids else ids + {id})
      ensures !(id in old(stages) && old(stages)[id] == Queued) ==>
                start.StartFails? && stages == old(stages) && executor.Holds(ids)
    {
      if id !in stages { return StartFails; }
      var stage := stages[id];
      stages := stages - {id};
      if stage != Queued {
        stages := stages[id := stage];
        assert stages == old(stages);
        return StartFails;
      }
      start := executor.StartRequest(id, report, ids);
      stages := stages[id := if start.StartFails? then FailedToStart else Executing];
    }

    predicate HasStartedExecution(id: RequestId)
      reads this
    {
      id in stages && stages[id] != Queued
    }

    /** Advances all executing requests of the decision in one model execution. */
    method AdvanceExecutions(grants: seq<Grant>, closed: set<RequestId>, run: RunReport) returns (results: seq<StepResult>)
      modifies this
      ensures (stages, results) == Advance(old(stages), grants, closed, run)
    {
      ghost var p := Prepare(stages, grants, closed);
      var batch;
      results, batch := PrepareScheduledExecutions(grants, closed);
      if batch == [] { return; }
      if run.RunSteps? && |run.steps| == |batch| {
        for n := 0 to |batch|
          invariant (stages, results) == SettleBatch(p, run, n)
        {
          var id, step := batch[n], run.steps[n];
          if step.sent {
            stages, results := stages[id := Executing], results + [StepResult(id, Some(step.phase))];
          } else {
            stages, results := stages[id := Cancelled], results + [StepResult(id, None)];
          }
        }
      } else {
        for n := 0 to |batch|
          invariant (stages, results) == SettleBatch(p, run, n)
        {
          stages, results := stages[batch[n] := FailedToExecute], results + [StepResult(batch[n], None)];
        }
      }
    }

    /** Takes the executing requests out of the map into the batch. */
    method PrepareScheduledExecutions(grants: seq<Grant>, closed: set<RequestId>)
      returns (results: seq<StepResult>, batch: seq<RequestId>)
      modifies this
      ensures Prepared(stages, results, batch) == Prepare(old(stages), grants, closed)
    {
      results, batch := [], [];
      for n := 0 to |grants|
        invariant Prepared(stages, results, batch) == Prepare(old(stages), grants[..n], closed)
      {
        assert grants[..n + 1][..n] == grants[..n] && Last(grants[..n + 1]) == grants[n];
        var id := grants[n].id;
        if id !in stages {
          results := results + [StepResult(id, None)];
        } else {
          var stage := stages[id];
          ghost var before := stages;
          stages := stages - {id};
          if stage != Executing {
            stages := stages[id := stage];
            assert stages == before;
            results := results + [StepResult(id, None)];
          } else if id in closed {
            stages := stages[id := Cancelled];
            assert stages == before[id := Cancelled];
            results := results + [StepResult(id, None)];
          } else {
            batch := batch + [id];
          }
        }
      }
      assert grants[..|grants|] == grants;
    }

    /** Takes an executing request off the books; reports how its model-side completion went. */
    method FinishRequest(executor: ModelExecutor, id: RequestId, report: FinishReport, ghost ids: set<RequestId>)
      returns (outcome: Option<bool>)
      requires executor.Holds(ids) && (id in stages && stages[id] == Executing ==> id in ids)
      modifies this, executor
      ensures id in old(stages) && old(stages)[id] == Executing ==>
                && stages == old(stages) - {id} && executor.Holds(ids - {id})
                && outcome == Some(report.outputOk && report.targetOk && (executor.drafted ==> report.draftOk))
      ensures !(id in old(stages) && old(stages)[id] == Executing) ==>
                outcome == None && stages == old(stages) && executor.Holds(ids)
    {
      if id !in stages { return None; }
      var stage := stages[id];
      stages := stages - {id};
      if stage != Executing {
        stages := stages[id := stage];
        assert stages == old(stages);
        return None;
      }
      var ok := executor.FinishRequest(id, report, ids);
      outcome := Some(ok);
    }

    /** Takes a started request off the books. */
    method AbortRequest(id: RequestId) returns (ok: bool)
      modifies this
      ensures ok <==> id in old(stages) && old(stages)[id] != Queued
      ensures stages == if ok then old(stages) - {id} else old(stages)
    {
      if id !in stages { return false; }
      var stage := stages[id];
      stages := stages - {id};
      if stage == Queued {
        stages := stages[id := stage];
        assert stages == old(stages);
        return false;
      }
      ok := true;
    }
  }
}
