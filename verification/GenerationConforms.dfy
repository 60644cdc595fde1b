/** The lengths that generation runs on are those of the speculative steps: a request's step, alone or in
    a batch, is a sequence of prepared passes and controls of `GenerationLengths`, each of them enabled
    where it happens. */
module GenerationConforms {
  import opened Common
  import opened GreedyDecoding
  import opened CacheEffects
  import opened GenerationLengths
  import RequestExecutionObject
  import Batch = RequestExecutionBatchObject

  // ---- Passes -----------------------------------------------------------------------------------

  /** The first n layers of the due pass are filled. */
  function LayersFilled(e: Progress, side: Side, layerCount: nat, n: nat): Progress {
    if n == 0 then e else LayerFilled(LayersFilled(e, side, layerCount, n - 1), side, layerCount)
  }

  /** The due pass went through all layers. */
  function Passed(e: Progress, side: Side): Progress {
    e.With(side, Cached(e.On(side).count + Due(e, side), 0, 0))
  }

  /** A pass is its layers one by one, and stays due until its last layer is filled. */
  lemma {:induction false} PassIsLayers(e: Progress, side: Side, layerCount: nat, n: nat)
    requires Due(e, side) > 0 && e.On(side).adding == 0 && e.On(side).layers == 0 && n <= layerCount
    ensures n < layerCount ==> Due(LayersFilled(e, side, layerCount, n), side) == Due(e, side)
    ensures n < layerCount ==> LayersFilled(e, side, layerCount, n).On(side).layers == n
    ensures 0 < n < layerCount ==> LayersFilled(e, side, layerCount, n) == e.With(side, Cached(e.On(side).count, Due(e, side), n))
    ensures n == layerCount > 0 ==> LayersFilled(e, side, layerCount, n) == Passed(e, side)
  {
    if n > 0 { PassIsLayers(e, side, layerCount, n - 1); }
  }

  // ---- Sequences of passes and controls -----------------------------------------------------------

  datatype Move = Decides(control: Control) | Runs(side: Side)

  /** The moves are possible one after the other, and lead from one progress to the other. */
  ghost predicate Leads(from: Progress, drafted: bool, moves: seq<Move>, to: Progress)
    decreases |moves|
  {
    if moves == [] then from == to
    else match moves[0]
      case Decides(control) =>
        LengthsOk(from, drafted) && MayDo(from, drafted, control) && Leads(Do(from, drafted, control), drafted, moves[1..], to)
      case Runs(side) => Due(from, side) > 0 && (side == Draft ==> drafted) && Leads(Passed(from, side), drafted, moves[1..], to)
  }

  lemma {:induction false} LeadsOn(a: Progress, drafted: bool, first: seq<Move>, b: Progress, second: seq<Move>, c: Progress)
    requires Leads(a, drafted, first, b) && Leads(b, drafted, second, c)
    ensures Leads(a, drafted, first + second, c)
    decreases |first|
  {
    if first == [] {
      assert first + second == second;
    } else {
      assert (first + second)[1..] == first[1..] + second;
      var next := match first[0] case Decides(control) => Do(a, drafted, control) case Runs(side) => Passed(a, side);
      LeadsOn(next, drafted, first[1..], b, second, c);
    }
  }

  lemma OneMove(a: Progress, drafted: bool, move: Move, b: Progress)
    requires match move
             case Decides(control) => LengthsOk(a, drafted) && MayDo(a, drafted, control) && Do(a, drafted, control) == b
             case Runs(side) => Due(a, side) > 0 && (side == Draft ==> drafted) && Passed(a, side) == b
    ensures Leads(a, drafted, [move], b)
  {
    assert [move][1..] == [];
  }

  /** n proposed tokens are n single-token draft passes. */
  lemma {:induction false} ProposalPasses(e: Progress, n: nat) returns (moves: seq<Move>)
    requires e.work.Propose? && e.draft.count + 1 == e.committed && e.draft.adding == 0 && e.draft.layers == 0 && n <= e.work.limit
    ensures Leads(e, true, moves, e.(draft := Cached(e.draft.count + n, 0, 0)))
  {
    if n == 0 {
      moves := [];
    } else {
      var before := ProposalPasses(e, n - 1);
      var so := e.(draft := Cached(e.draft.count + n - 1, 0, 0));
      OneMove(so, true, Runs(Draft), Passed(so, Draft));
      LeadsOn(e, true, before, so, [Runs(Draft)], Passed(so, Draft));
      moves := before + [Runs(Draft)];
    }
  }

  // ---- One request's step -------------------------------------------------------------------------

  function StageOf(phase: RequestExecutionObject.Phase): Stage {
    match phase
    case Prefilling(remaining) => InPrefill(remaining)
    case Decoding(generated) => InDecode(generated)
    case Finished(_) => Ended
  }

  /** What the caches can tell of a request between two steps. */
  function ProgressOf(s: Batch.Stepped): Progress {
    Progress(|s.e.input|, s.e.p.maxNew, |s.e.tokens|, Cached(|s.targetCache|, 0, 0), Cached(|s.draftCache|, 0, 0), StageOf(s.e.phase), Idle)
  }

  /** A prefill or speculative step changes the lengths of tokens and caches as passes and controls that
      are possible one after the other, so that everything proved of generation runs holds of it. */
  lemma StepConforms(e: Batch.Execution, budget: nat, target: Model, draft: Model, targetCache: seq<Token>, draftCache: seq<Token>)
    returns (moves: seq<Move>)
    requires Batch.Ready(e, targetCache, draftCache) && budget > 0 && !e.phase.Finished?
    ensures LengthsOk(ProgressOf(Batch.Stepped(e, targetCache, draftCache)), true)
    ensures Leads(ProgressOf(Batch.Stepped(e, targetCache, draftCache)), true, moves,
                  ProgressOf(Batch.StepAlone(e, budget, target, draft, targetCache, draftCache)))
  {
    if e.phase.Prefilling? {
      moves := ChunkConforms(e, budget, target, draft, targetCache, draftCache);
    } else {
      moves := IterationConforms(e, budget, target, draft, targetCache, draftCache);
    }
  }

  lemma PassIfDue(a: Progress, side: Side) returns (moves: seq<Move>)
    requires a.On(side).adding == 0 && a.On(side).layers == 0
    ensures Leads(a, true, moves, Passed(a, side))
  {
    if Due(a, side) > 0 {
      moves := [Runs(side)];
      OneMove(a, true, Runs(side), Passed(a, side));
    } else {
      moves := [];
    }
  }

  /** A prefill chunk in both caches up to the same position. */
  lemma ChunkMoves(a: Progress, budget: nat) returns (moves: seq<Move>)
    requires LengthsOk(a, true) && MayDo(a, true, PrepareChunk(budget))
    ensures var end := Min(Min(a.target.count, a.draft.count) + budget, a.inputCount - 1);
            LengthsOk(Chunked(a, end), true) && MayDo(Chunked(a, end), true, CompleteChunk(true))
            && Leads(a, true, moves, Do(Chunked(a, end), true, CompleteChunk(true)))
  {
    var b := Do(a, true, PrepareChunk(budget));
    var end := Min(Min(a.target.count, a.draft.count) + budget, a.inputCount - 1);
    var c, d := Passed(b, Draft), Chunked(a, end);
    assert Passed(c, Target) == d;
    hide Leads;
    var chunk := PassIfDue(b, Draft);
    var rest := PassIfDue(c, Target);
    var z := Do(d, true, CompleteChunk(true));
    OneMove(a, true, Decides(PrepareChunk(budget)), b);
    OneMove(d, true, Decides(CompleteChunk(true)), z);
    hide Do, MayDo, LengthsOk, Due, Passed, Chunked;
    LeadsOn(c, true, rest, d, [Decides(CompleteChunk(true))], z);
    LeadsOn(b, true, chunk, c, rest + [Decides(CompleteChunk(true))], z);
    LeadsOn(a, true, [Decides(PrepareChunk(budget))], b, chunk + (rest + [Decides(CompleteChunk(true))]), z);
    moves := [Decides(PrepareChunk(budget))] + (chunk + (rest + [Decides(CompleteChunk(true))]));
  }

  /** Both caches are filled at least up to `end`. */
  function Chunked(a: Progress, end: nat): Progress {
    a.(target := Cached(Max(a.target.count, end), 0, 0), draft := Cached(Max(a.draft.count, end), 0, 0), work := Chunk(end))
  }

  lemma ChunkConforms(e: Batch.Execution, budget: nat, target: Model, draft: Model, targetCache: seq<Token>, draftCache: seq<Token>)
    returns (moves: seq<Move>)
    requires Batch.Ready(e, targetCache, draftCache) && budget > 0 && e.phase.Prefilling?
    ensures LengthsOk(ProgressOf(Batch.Stepped(e, targetCache, draftCache)), true)
    ensures Leads(ProgressOf(Batch.Stepped(e, targetCache, draftCache)), true, moves,
                  ProgressOf(Batch.StepAlone(e, budget, target, draft, targetCache, draftCache)))
  {
    hide Leads;
    moves := ChunkMoves(ProgressOf(Batch.Stepped(e, targetCache, draftCache)), budget);
  }

  /** How many tokens verification accepts and commits, whatever the target says. */
  lemma IterationLengths(e: Batch.Execution, proposal: seq<Token>, target: Model)
    requires e.phase.Decoding? && e.tokens != [] && 0 < |proposal| <= e.p.maxNew - e.phase.generated
    ensures var logits := TargetLogits(target, e.tokens, proposal);
            var v := VerifyFrom(e.p, e.tokens, proposal, logits, 0);
            var c := CommitFrom(e.p, e.tokens, proposal[..v.accepted], v.replacement, 0);
            && (if v.replacement.Some? then v.accepted < |proposal| else 1 <= v.accepted <= |proposal|)
            && c.count == v.accepted + (if v.replacement.Some? then 1 else 0) - (if c.continues then 0 else 1)
            && |c.tokens| == |e.tokens| + c.count
            && RetainedCount(e.tokens, v) <= |e.tokens| + |proposal| - 1
  {
    hide VerifyFrom, CommitFrom, Reference;
    var logits := TargetLogits(target, e.tokens, proposal);
    var v := VerifyFrom(e.p, e.tokens, proposal, logits, 0);
    var most := e.p.maxNew - e.phase.generated;
    SpeculativeIterationRefines(e.p, target, e.tokens, proposal, logits, most);
    VerifiedPrefix(e.p, target, e.tokens, proposal, logits, 0, most);
    assert proposal[0..v.accepted] == proposal[..v.accepted] && e.tokens + proposal[..0] == e.tokens;
  }

  /** The states a speculative iteration passes through. */
  lemma IterationStates(a: Progress, limit: nat, drawn: nat, last: Control)
    requires LengthsOk(a, true) && MayDo(a, true, PrepareProposal(limit)) && 1 <= drawn <= limit
    requires last.CompleteSpeculation? && if last.replaced then last.accepted < drawn else 1 <= last.accepted <= drawn
    ensures var b := Do(a, true, PrepareProposal(limit));
            var c := b.(draft := Cached(b.draft.count + drawn, 0, 0));
            && b.work == Propose(limit) && b.draft.count + 1 == b.committed && b.draft.adding == 0 && b.draft.layers == 0
            && LengthsOk(c, true) && MayDo(c, true, StartVerification)
            && var d := Do(c, true, StartVerification);
               && Due(d, Target) > 0 && Passed(d, Target) == Verified(a, drawn)
    ensures LengthsOk(Verified(a, drawn), true) && MayDo(Verified(a, drawn), true, last)
  {
  }

  /** All proposed tokens but the last are in both caches. */
  function Verified(a: Progress, drawn: nat): Progress
    requires a.committed > 0
  {
    var cached := Cached(a.committed - 1 + drawn, 0, 0);
    a.(target := cached, draft := cached, work := Verify(drawn))
  }

  /** A proposal, its verification and its completion, one after the other. */
  lemma IterationMoves(a: Progress, limit: nat, drawn: nat, last: Control) returns (moves: seq<Move>)
    requires LengthsOk(a, true) && MayDo(a, true, PrepareProposal(limit)) && 1 <= drawn <= limit
    requires last.CompleteSpeculation? && if last.replaced then last.accepted < drawn else 1 <= last.accepted <= drawn
    ensures a.committed > 0 && LengthsOk(Verified(a, drawn), true) && MayDo(Verified(a, drawn), true, last)
    ensures Leads(a, true, moves, Do(Verified(a, drawn), true, last))
  {
    IterationStates(a, limit, drawn, last);
    hide Leads, Do, MayDo, LengthsOk, Due, Passed, Verified;
    var b := Do(a, true, PrepareProposal(limit));
    var c := b.(draft := Cached(b.draft.count + drawn, 0, 0));
    var d, so := Do(c, true, StartVerification), Verified(a, drawn);
    var z := Do(so, true, last);
    var passes := ProposalPasses(b, drawn);
    OneMove(so, true, Decides(last), z);
    OneMove(d, true, Runs(Target), so);
    OneMove(c, true, Decides(StartVerification), d);
    OneMove(a, true, Decides(PrepareProposal(limit)), b);
    LeadsOn(d, true, [Runs(Target)], so, [Decides(last)], z);
    var checks := [Runs(Target)] + [Decides(last)];
    LeadsOn(c, true, [Decides(StartVerification)], d, checks, z);
    LeadsOn(b, true, passes, c, [Decides(StartVerification)] + checks, z);
    LeadsOn(a, true, [Decides(PrepareProposal(limit))], b, passes + ([Decides(StartVerification)] + checks), z);
    moves := [Decides(PrepareProposal(limit))] + (passes + ([Decides(StartVerification)] + checks));
  }

  lemma IterationConforms(e: Batch.Execution, budget: nat, target: Model, draft: Model, targetCache: seq<Token>, draftCache: seq<Token>)
    returns (moves: seq<Move>)
    requires Batch.Ready(e, targetCache, draftCache) && e.phase.Decoding?
    ensures LengthsOk(ProgressOf(Batch.Stepped(e, targetCache, draftCache)), true)
    ensures Leads(ProgressOf(Batch.Stepped(e, targetCache, draftCache)), true, moves,
                  ProgressOf(Batch.StepAlone(e, budget, target, draft, targetCache, draftCache)))
  {
    hide VerifyFrom, CommitFrom, ProposeFrom, Leads, TargetLogits;
    var limit := Batch.ProposalLimit(e);
    var proposal := ProposeFrom(e.p, draft, e.tokens, [], limit);
    Batch.ProposalNotEmpty(e.p, draft, e.tokens, limit);
    IterationLengths(e, proposal, target);
    var v := VerifyFrom(e.p, e.tokens, proposal, TargetLogits(target, e.tokens, proposal), 0);
    var k := CommitFrom(e.p, e.tokens, proposal[..v.accepted], v.replacement, 0);
    moves := IterationMoves(ProgressOf(Batch.Stepped(e, targetCache, draftCache)), limit, |proposal|,
                            CompleteSpeculation(v.accepted, v.replacement.Some?, k.continues));
  }

  // ---- Without a draft ----------------------------------------------------------------------------

  /** What a target-only step leaves: the lengths that `RequestExecution.StepTargetOnly` promises. */
  function TargetStepped(a: Progress, budget: nat, continues: bool): Progress
    requires !a.stage.Ended?
  {
    match a.stage
    case InPrefill(_) =>
      var end := Min(a.target.count + budget, a.inputCount);
      var passed := a.(target := Cached(end, 0, 0));
      if end < a.inputCount then passed.(stage := InPrefill(a.inputCount - end)) else Sampled(passed, 0, continues)
    case InDecode(g) => Sampled(a.(target := Cached(a.committed, 0, 0)), g, continues)
  }

  /** A prefill chunk or a single decode on the target alone. */
  lemma TargetStepConforms(a: Progress, budget: nat, continues: bool) returns (moves: seq<Move>)
    requires LengthsOk(a, false) && a.work.Idle? && !a.stage.Ended? && budget > 0
    ensures Leads(a, false, moves, TargetStepped(a, budget, continues))
  {
    var first, last := if a.stage.InPrefill? then PrepareChunk(budget) else PrepareSingle,
                       if a.stage.InPrefill? then CompleteChunk(continues) else CompleteSingle(continues);
    var b := Do(a, false, first);
    assert Due(b, Target) > 0;
    var c := Passed(b, Target);
    var z := Do(c, false, last);
    hide Leads;
    OneMove(a, false, Decides(first), b);
    OneMove(b, false, Runs(Target), c);
    OneMove(c, false, Decides(last), z);
    LeadsOn(b, false, [Runs(Target)], c, [Decides(last)], z);
    LeadsOn(a, false, [Decides(first)], b, [Runs(Target)] + [Decides(last)], z);
    moves := [Decides(first)] + ([Runs(Target)] + [Decides(last)]);
  }
}
