/** What happens outside the worker in one round, and what of it the caches decide: a start's first phase
    is what the restored token counts give, and a publication works exactly when both caches perform it. */
module WorkerEnvironment {
  import opened Common
  import opened SchedulerSpec
  import opened SchedulerRuns
  import opened ServingRuns
  import opened GenerationRuns
  import opened WorkerLedgers
  import opened ModelExecutorObject
  import opened RequestManagerObject
  import Lengths = GenerationLengths

  /** How starts go, which publications work, which clients are gone, how the model execution goes, and
      how finishing goes. */
  datatype Environment = Environment(start: RequestId -> StartReport, publishes: RequestId -> bool, closed: set<RequestId>,
                                     run: RunReport, finish: RequestId -> FinishReport)

  function InitialPhase(start: StartReport): GenerationPhase
    requires !start.StartFails?
  {
    match start
    case StartsPrefill(n) => PrefillPhase(n)
    case StartsDecode => DecodePhase(0)
  }

  function ReportOf(stage: Lengths.Stage): StartReport
    requires !stage.Ended?
  {
    match stage
    case InPrefill(remaining) => StartsPrefill(remaining)
    case InDecode(_) => StartsDecode
  }

  ghost predicate Succeeding(cfg: Config, w: Serving, op: GenerationOp) {
    Enabled(cfg, w, op) && AllSucceed(cfg, w.g, Expand(w, op))
  }

  /** The start of an admitted request on caches in order, up to the publication that a leader starting in
      decode calls for: restore, take the phase over into the scheduler, publish the input. */
  ghost predicate StartAnswered(cfg: Config, w: Serving, id: RequestId, input: seq<Token>, env: Environment) {
    && ServingOk(cfg, w) && WorkerLedgers.InPrefill(w.g.t.s, id) && Succeeding(cfg, w, Begin(id, input))
    && var begun := GenerationRuns.After(cfg, w, Begin(id, input));
       && id in begun.progress && !begun.progress[id].stage.Ended?
       && env.start(id) == ReportOf(begun.progress[id].stage)
       && PublicationAnswered(cfg, begun, id, input, InitialPhase(env.start(id)), env.publishes(id))
  }

  /** After the scheduler followed the first phase, the publication works exactly when the caches perform it. */
  ghost predicate PublicationAnswered(cfg: Config, begun: Serving, id: RequestId, input: seq<Token>, phase: GenerationPhase, works: bool) {
    && Succeeding(cfg, begun, Book(Progress(id, phase)))
    && (works <==> Succeeding(cfg, GenerationRuns.After(cfg, begun, Book(Progress(id, phase))), PublishNow(id, input)))
  }

  /** The start fails outside the caches, or goes as some state of the caches in order has it. */
  ghost predicate AnsweredByCaches(cfg: Config, env: Environment, id: RequestId) {
    env.start(id).StartFails? || exists w: Serving, input: seq<Token> :: StartAnswered(cfg, w, id, input, env)
  }

  /** The publication that a request starting in decode may need works. */
  ghost predicate PublicationsWork(env: Environment) {
    forall id :: env.start(id).StartsDecode? ==> env.publishes(id)
  }

  /** On caches in order the first publication after a start never fails. */
  lemma FirstPublicationsWork(cfg: Config, env: Environment)
    requires forall id :: AnsweredByCaches(cfg, env, id)
    ensures PublicationsWork(env)
  {
    hide StartAnswered;
    forall id | env.start(id).StartsDecode? ensures env.publishes(id) {
      assert AnsweredByCaches(cfg, env, id);
      var w: Serving, input: seq<Token> :| StartAnswered(cfg, w, id, input, env);
      PublishesInput(cfg, w, id, input, env);
    }
  }

  lemma PublishesInput(cfg: Config, w: Serving, id: RequestId, input: seq<Token>, env: Environment)
    requires StartAnswered(cfg, w, id, input, env)
    ensures env.publishes(id)
  {
    hide ServingOk, AllSucceed, GenerationRuns.After, Expand;
    var begun := GenerationRuns.After(cfg, w, Begin(id, input));
    StepKeepsServing(cfg, w, Begin(id, input));
    FollowedInput(cfg, w, id, input, InitialPhase(env.start(id)));
    StepKeepsServing(cfg, begun, Book(Progress(id, InitialPhase(env.start(id)))));
    StepKeepsServing(cfg, GenerationRuns.After(cfg, begun, Book(Progress(id, InitialPhase(env.start(id))))), PublishNow(id, input));
  }

  /** Taking the first phase over changes neither caches nor progress, so the input may be published. */
  lemma FollowedInput(cfg: Config, w: Serving, id: RequestId, input: seq<Token>, phase: GenerationPhase)
    requires Succeeding(cfg, w, Begin(id, input))
    requires var begun := GenerationRuns.After(cfg, w, Begin(id, input));
             id in begun.progress && Succeeding(cfg, begun, Book(Progress(id, phase)))
    ensures var begun := GenerationRuns.After(cfg, w, Begin(id, input));
            Enabled(cfg, GenerationRuns.After(cfg, begun, Book(Progress(id, phase))), PublishNow(id, input))
  {
    hide AllSucceed, RunAll, Expand, CachesOk, OpAllowed;
  }

  /** Whatever state of the caches in order a request is started in, there are answers as it has them. */
  lemma CachesAnswer(cfg: Config, w: Serving, id: RequestId, input: seq<Token>) returns (env: Environment)
    requires ServingOk(cfg, w) && Enabled(cfg, w, Begin(id, input)) && WorkerLedgers.InPrefill(w.g.t.s, id)
    ensures StartAnswered(cfg, w, id, input, env) && !env.start(id).StartFails?
    ensures forall x :: AnsweredByCaches(cfg, env, x)
  {
    hide ServingOk, AllSucceed, GenerationRuns.After, Expand;
    StepKeepsServing(cfg, w, Begin(id, input));
    var begun := GenerationRuns.After(cfg, w, Begin(id, input));
    BeginSucceeds(cfg, w, id, input);
    NotEnded(cfg, w, id, input);
    var report := ReportOf(begun.progress[id].stage);
    FollowAllowed(cfg, begun, id, InitialPhase(report));
    StepKeepsServing(cfg, begun, Book(Progress(id, InitialPhase(report))));
    FollowedInput(cfg, w, id, input, InitialPhase(report));
    StepKeepsServing(cfg, GenerationRuns.After(cfg, begun, Book(Progress(id, InitialPhase(report)))), PublishNow(id, input));
    env := Environment((x: RequestId) => if x == id then report else StartFails, (x: RequestId) => true, {}, RunFails,
                       (x: RequestId) => FinishReport(true, true, true));
    assert StartAnswered(cfg, w, id, input, env);
  }

  lemma NotEnded(cfg: Config, w: Serving, id: RequestId, input: seq<Token>)
    requires Succeeding(cfg, w, Begin(id, input)) && id in GenerationRuns.After(cfg, w, Begin(id, input)).progress
    ensures !GenerationRuns.After(cfg, w, Begin(id, input)).progress[id].stage.Ended?
  {
    hide AllSucceed, RunAll, Expand;
  }

  lemma FollowAllowed(cfg: Config, w: Serving, id: RequestId, phase: GenerationPhase)
    requires WorkerLedgers.InPrefill(w.g.t.s, id) && !phase.FinishedPhase?
    ensures Enabled(cfg, w, Book(Progress(id, phase)))
  {
  }
}
