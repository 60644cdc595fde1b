/** A request's generation as far as its caches can tell: how many tokens are committed, how many each
    model has cached, and which forward passes are due. Sampling decides only how many proposed tokens are
    accepted, whether one is replaced and whether generation goes on, so greedy and stochastic decoding
    are both instances. */
module GenerationLengths {
  import opened Common
  import opened CacheEffects

  datatype Side = Target | Draft

  datatype Stage = InPrefill(remaining: nat) | InDecode(generated: nat) | Ended

  /** What a step is busy with between two step boundaries. */
  datatype Work =
    | Idle
    | Chunk(end: nat)
    | Single
    | Propose(limit: nat)
    | Verify(drawn: nat)

  datatype Progress = Progress(inputCount: nat, maxNew: nat, committed: nat, target: Cached, draft: Cached, stage: Stage, work: Work)
  {
    function On(side: Side): Cached { if side == Target then target else draft }

    function With(side: Side, k: Cached): Progress { if side == Target then this.(target := k) else this.(draft := k) }

    /** The tokens that may ever be cached: the last generated token never is. */
    function Bound(): nat
      requires inputCount > 0
    {
      inputCount + maxNew - 1
    }
  }

  /** The tokens of the pass that is due on one side, if any. */
  function Due(e: Progress, side: Side): nat {
    var count := e.On(side).count;
    match e.work
    case Idle => 0
    case Chunk(end) => if count < end then end - count else 0
    case Single => if side == Target && count < e.committed then e.committed - count else 0
    case Propose(limit) => if side == Draft && count + 1 < e.committed + limit then 1 else 0
    case Verify(drawn) => if side == Target && count + 1 < e.committed + drawn then e.committed + drawn - 1 - count else 0
  }

  /** Either no pass is under way, or the due one is, with some of its layers filled. */
  predicate PassOk(e: Progress, side: Side) {
    var k := e.On(side);
    (k.adding == 0 && k.layers == 0) || (k.adding > 0 && k.adding == Due(e, side) && k.layers > 0)
  }

  predicate CountsOk(e: Progress, drafted: bool) {
    var (t, d) := (e.target.count, e.draft.count);
    match e.stage
    case InPrefill(remaining) =>
      && e.committed == e.inputCount && (if drafted then t < e.inputCount && d < e.inputCount else t <= e.inputCount)
      && (e.work.Idle? || e.work.Chunk?)
      && (e.work.Idle? ==> remaining > 0 && remaining == if drafted then e.inputCount - 1 - Min(t, d) else e.inputCount - t)
      && (e.work.Chunk? ==> e.work.end <= if drafted then e.inputCount - 1 else e.inputCount)
    case InDecode(g) =>
      && g < e.maxNew && e.committed == e.inputCount + g
      && (match e.work
          case Idle => t + 1 == e.committed && (drafted ==> d + 1 == e.committed)
          case Chunk(_) => false
          case Single => !drafted && e.committed <= t + 1 <= e.committed + 1
          case Propose(limit) =>
            drafted && limit <= e.maxNew - g && t + 1 == e.committed && e.committed <= d + 1 <= e.committed + limit
          case Verify(drawn) =>
            && drafted && 1 <= drawn <= e.maxNew - g && d + 1 == e.committed + drawn
            && e.committed <= t + 1 <= e.committed + drawn)
    case Ended =>
      e.work.Idle? && e.committed <= e.inputCount + e.maxNew && t <= e.committed && (drafted ==> d <= e.committed)
  }

  predicate LengthsOk(e: Progress, drafted: bool) {
    e.inputCount > 0 && e.maxNew > 0 && CountsOk(e, drafted) && PassOk(e, Target) && (drafted ==> PassOk(e, Draft))
  }

  /** What a rollback always retains: the tokens that were cached before the iteration. Nothing beyond it
      has been published. */
  function Floor(e: Progress, side: Side): nat {
    if e.stage.InDecode? && e.committed > 0 then e.committed - 1 else e.On(side).count
  }

  // ---- Steps ------------------------------------------------------------------------------------

  datatype Control =
    | PrepareChunk(budget: nat)
    | PrepareSingle
    | PrepareProposal(limit: nat)
    | StartVerification
    | CompleteChunk(continues: bool)
    | CompleteSingle(continues: bool)
    | CompleteSpeculation(accepted: nat, replaced: bool, continues: bool)

  function PassesDone(e: Progress, drafted: bool): bool { Due(e, Target) == 0 && (drafted ==> Due(e, Draft) == 0) }

  /** When the generation loop does what: preparation starts from a step boundary, a proposal is verified
      when it has a token, and a step is completed when its passes are done. An iteration accepts a prefix
      of the proposal, and replaces the next token or accepts at least one. */
  predicate MayDo(e: Progress, drafted: bool, control: Control) {
    match control
    case PrepareChunk(budget) => e.stage.InPrefill? && e.work.Idle? && budget > 0
    case PrepareSingle => e.stage.InDecode? && e.work.Idle? && !drafted
    case PrepareProposal(limit) =>
      e.stage.InDecode? && e.work.Idle? && drafted && limit > 0 && e.stage.generated + limit <= e.maxNew
    case StartVerification => e.stage.InDecode? && e.work.Propose? && e.draft.adding == 0 && e.draft.count >= e.committed
    case CompleteChunk(_) => e.stage.InPrefill? && e.work.Chunk? && PassesDone(e, drafted)
    case CompleteSingle(_) => e.stage.InDecode? && e.work.Single? && PassesDone(e, drafted)
    case CompleteSpeculation(accepted, replaced, _) =>
      && e.stage.InDecode? && e.work.Verify? && PassesDone(e, drafted)
      && (if replaced then accepted < e.work.drawn else 1 <= accepted <= e.work.drawn)
  }

  function StageAfter(maxNew: nat, generated: nat, continues: bool): Stage {
    if continues && generated < maxNew then InDecode(generated) else Ended
  }

  /** One token was sampled from the target; an end of sequence is not committed. */
  function Sampled(e: Progress, generated: nat, continues: bool): Progress {
    e.(committed := e.committed + (if continues then 1 else 0), stage := StageAfter(e.maxNew, generated + 1, continues), work := Idle)
  }

  /** The cached tokens an iteration keeps. */
  function Retained(e: Progress, accepted: nat, replaced: bool): nat
    requires e.committed > 0
  {
    e.committed - 1 + accepted + (if replaced then 1 else 0)
  }

  function Do(e: Progress, drafted: bool, control: Control): Progress
    requires LengthsOk(e, drafted) && MayDo(e, drafted, control)
  {
    var (t, d) := (e.target.count, e.draft.count);
    match control
    case PrepareChunk(budget) =>
      e.(work := Chunk(if drafted then Min(Min(t, d) + budget, e.inputCount - 1) else Min(t + budget, e.inputCount)))
    case PrepareSingle => e.(work := Single)
    case PrepareProposal(limit) => e.(work := Propose(limit))
    case StartVerification => e.(work := Verify(d + 1 - e.committed))
    case CompleteChunk(continues) =>
      if drafted then
        var remaining := e.inputCount - 1 - Min(t, d);
        e.(stage := if remaining == 0 then InDecode(0) else InPrefill(remaining), work := Idle)
      else if t < e.inputCount then e.(stage := InPrefill(e.inputCount - t), work := Idle)
      else Sampled(e, 0, continues)
    case CompleteSingle(continues) => Sampled(e, e.stage.generated, continues)
    case CompleteSpeculation(accepted, replaced, continues) =>
      var kept := Cached(Retained(e, accepted, replaced), 0, 0);
      var count := accepted + (if replaced then 1 else 0) - (if continues then 0 else 1);
      e.(committed := e.committed + count, target := kept, draft := kept,
         stage := StageAfter(e.maxNew, e.stage.generated + count, continues), work := Idle)
  }

  /** One more layer of the due pass is filled; with the last layer the pass is done. */
  function LayerFilled(e: Progress, side: Side, layerCount: nat): Progress {
    var k := e.On(side);
    e.With(side, if k.layers + 1 == layerCount then Cached(k.count + Due(e, side), 0, 0) else Cached(k.count, Due(e, side), k.layers + 1))
  }

  lemma DoKeepsOk(e: Progress, drafted: bool, control: Control)
    requires LengthsOk(e, drafted) && MayDo(e, drafted, control)
    ensures LengthsOk(Do(e, drafted, control), drafted)
    ensures Do(e, drafted, control).inputCount == e.inputCount && Do(e, drafted, control).maxNew == e.maxNew
  {
  }

  lemma LayerKeepsOk(e: Progress, drafted: bool, side: Side, layerCount: nat)
    requires LengthsOk(e, drafted) && Due(e, side) > 0 && (side == Draft ==> drafted) && e.On(side).layers < layerCount
    ensures LengthsOk(LayerFilled(e, side, layerCount), drafted)
    ensures Floor(LayerFilled(e, side, layerCount), side) >= Floor(e, side)
  {
  }

  /** Every pass that is ever due fits the request's bound, the temporary tokens of a proposal included. */
  lemma PassFitsBound(e: Progress, drafted: bool, side: Side)
    requires LengthsOk(e, drafted) && Due(e, side) > 0 && (side == Draft ==> drafted)
    ensures e.On(side).count + Due(e, side) <= e.Bound()
  {
  }

  /** A rollback retains at least what was cached before the iteration and at most what is cached now. */
  lemma RollbackInRange(e: Progress, drafted: bool, accepted: nat, replaced: bool, continues: bool)
    requires LengthsOk(e, drafted) && MayDo(e, drafted, CompleteSpeculation(accepted, replaced, continues))
    ensures drafted && e.target.adding == 0 && e.draft.adding == 0 && e.target.layers == 0 && e.draft.layers == 0
    ensures forall side: Side :: Floor(e, side) <= Retained(e, accepted, replaced) <= e.On(side).count
    ensures forall side: Side :: Floor(Do(e, drafted, CompleteSpeculation(accepted, replaced, continues)), side) >= Floor(e, side)
  {
  }

  /** At a step boundary no pass is under way, the tokens cached are committed ones, and everything cached
      may be published. */
  lemma BoundaryFacts(e: Progress, drafted: bool, side: Side)
    requires LengthsOk(e, drafted) && e.work.Idle? && (side == Draft ==> drafted)
    ensures e.On(side).adding == 0 && e.On(side).layers == 0
    ensures Floor(e, side) == e.On(side).count <= e.committed
  {
  }
}
