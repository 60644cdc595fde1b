/** One round of the worker as a function: what the scheduler, the request stages and the reported outcomes
    are after it, for every environment. The worker's methods compute it; here is what it means for each
    request. */
module WorkerBooks {
  import opened Common
  import opened Arithmetic
  import opened PrefixCacheFlight
  import opened SchedulerSpec
  import opened SchedulingDecision
  import opened WorkerLedgers
  import opened ModelExecutorObject
  import opened RequestManagerObject
  import opened WorkerEnvironment

  /** The scheduler, the manager's stages and the outcomes told to clients. */
  datatype Books = Books(s: State, stages: Stages, reported: multiset<RequestId>)

  /** The scheduler follows a phase; a leader's prefix is published before its followers are woken. */
  function HandlePhase(s: State, id: RequestId, phase: GenerationPhase, publishes: bool): (State, bool) {
    var (s', r) := UpdatePhase(s, id, phase);
    match r
    case PhaseError(_) => (s', false)
    case PhaseOk(must) =>
      if !must then (s', true)
      else if !publishes then (s', false)
      else var (released, error) := ReleasePrefixFlight(s', id); (released, error == None)
  }

  /** `finalize_request_abort`, as far as the scheduler is concerned. */
  function Aborts(s: State, id: RequestId): State { Terminate(RemoveActive(s, id).0, id, Aborted).0 }

  function FinishHow(drafted: bool, report: FinishReport): Termination {
    if report.outputOk && report.targetOk && (drafted ==> report.draftOk) then Completed else Aborted
  }

  function OffBooks(b: Books, s: State, id: RequestId): Books { Books(s, b.stages - {id}, b.reported + multiset{id}) }

  /** `InferenceWorkerMessage::Generate`. */
  datatype Message = Message(id: RequestId, input: seq<Token>, maxNew: nat, cached: nat)

  /** A request that may be enqueued, as the router normalized it. */
  predicate Normalized(cfg: Config, m: Message) {
    && m.input != [] && m.maxNew > 0 && cfg.pageTokens > 0
    && CeilDiv(CachedDemand(|m.input|, m.maxNew), cfg.pageTokens) <= cfg.PageCapacity()
  }

  // ---- Messages -----------------------------------------------------------------------------------

  /** One message: a request with a new id is queued, any other is refused. */
  function TakeBooks(cfg: Config, b: Books, m: Message): Books
    requires Normalized(cfg, m)
  {
    if m.id in b.stages then b
    else b.(s := Enqueue(cfg, b.s, m.id, m.input, m.maxNew, m.cached).0, stages := b.stages[m.id := Queued])
  }

  function TakeAllBooks(cfg: Config, b: Books, messages: seq<Message>): Books
    requires forall j :: 0 <= j < |messages| ==> Normalized(cfg, messages[j])
  {
    if messages == [] then b else TakeBooks(cfg, TakeAllBooks(cfg, b, messages[..|messages| - 1]), Last(messages))
  }

  /** After its messages were taken every request of theirs is on the books, and nobody left them. */
  lemma {:induction false} EveryMessageTaken(cfg: Config, b: Books, messages: seq<Message>)
    requires forall j :: 0 <= j < |messages| ==> Normalized(cfg, messages[j])
    ensures var b' := TakeAllBooks(cfg, b, messages);
            && (forall j :: 0 <= j < |messages| ==> messages[j].id in b'.stages)
            && (forall id :: id in b.stages ==> id in b'.stages && b'.stages[id] == b.stages[id])
            && (forall id :: id in b'.stages && id !in b.stages ==> b'.stages[id] == Queued)
            && b'.reported == b.reported
    decreases |messages|
  {
    hide Enqueue, Normalized;
    if messages != [] {
      EveryMessageTaken(cfg, b, messages[..|messages| - 1]);
      forall j | 0 <= j < |messages| - 1 ensures messages[j] == messages[..|messages| - 1][j] { }
    }
  }

  // ---- Starts -------------------------------------------------------------------------------------

  /** The start of one admitted request. */
  function StartBooks(b: Books, id: RequestId, leaked: set<RequestId>, env: Environment): Books {
    var start := if id in leaked then StartFails else env.start(id);
    if start.StartFails? then OffBooks(b, Aborts(b.s, id), id)
    else
      var (s', ok) := HandlePhase(b.s, id, InitialPhase(start), env.publishes(id));
      if ok then b.(s := s', stages := b.stages[id := Executing]) else OffBooks(b, Aborts(s', id), id)
  }

  function StartAllBooks(b: Books, ids: seq<RequestId>, leaked: set<RequestId>, env: Environment): Books {
    if ids == [] then b else StartBooks(StartAllBooks(b, ids[..|ids| - 1], leaked, env), Last(ids), leaked, env)
  }

  // ---- Steps --------------------------------------------------------------------------------------

  /** One result is followed. */
  function FollowBooks(b: Books, r: StepResult, drafted: bool, env: Environment): Books {
    match r.phase
    case None => OffBooks(b, Aborts(b.s, r.id), r.id)
    case Some(phase) =>
      var (s', ok) := HandlePhase(b.s, r.id, phase, env.publishes(r.id));
      if !ok then OffBooks(b, Aborts(s', r.id), r.id)
      else if phase.FinishedPhase? then OffBooks(b, Terminate(s', r.id, FinishHow(drafted, env.finish(r.id))).0, r.id)
      else b.(s := s')
  }

  function FollowAllBooks(b: Books, results: seq<StepResult>, drafted: bool, env: Environment): Books {
    if results == [] then b else FollowBooks(FollowAllBooks(b, results[..|results| - 1], drafted, env), Last(results), drafted, env)
  }

  // ---- A round ------------------------------------------------------------------------------------

  /** The books after the starts of a round. */
  function StartedBooks(cfg: Config, b: Books, leaked: set<RequestId>, env: Environment): Books
    requires cfg.pageTokens > 0
  {
    var (admitted, ids) := Admit(cfg, b.s);
    StartAllBooks(b.(s := admitted), ids, leaked, env)
  }

  /** The decision of a round, and the stages and results of its execution. */
  function DecidedBooks(cfg: Config, b: Books, env: Environment): (Books, seq<StepResult>) {
    var (s, grants) := Decide(cfg, b.s);
    var (stages, results) := Advance(b.stages, grants, env.closed, env.run);
    (Books(s, stages, b.reported), results)
  }

  function RoundBooks(cfg: Config, drafted: bool, b: Books, leaked: set<RequestId>, env: Environment): Books
    requires cfg.pageTokens > 0
  {
    var (decided, results) := DecidedBooks(cfg, StartedBooks(cfg, b, leaked, env), env);
    FollowAllBooks(decided, results, drafted, env)
  }
}
