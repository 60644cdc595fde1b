/** One request's generation as the object that the batch steps: prefill chunks, single-token decodes,
    speculative iterations with proposal, verification, rollback and commit, over the caches of the
    target and the draft model. */
module RequestExecutionObject {
  import opened Common
  import opened DraftTokenCount
  import opened GreedyDecoding

  /** A model as one request sees it: the tokens in its cache, and logits that depend on the cached
      prefix. `limit` is the request's page reservation in tokens. */
  class ModelInstance {
    const model: Model
    ghost const limit: nat
    var cached: seq<Token>

    constructor (m: Model, restored: seq<Token>, ghost most: nat)
      ensures model == m && cached == restored && limit == most && fresh(this)
    {
      model, cached, limit := m, restored, most;
    }

    /** Appends the input to the cache, which must end where the input starts, within the reservation. */
    method Forward(input: seq<Token>, start: nat) returns (logits: seq<Logits>)
      requires start == |cached| && input != [] && |cached| + |input| <= limit
      modifies this
      ensures cached == old(cached) + input
      ensures |logits| == |input| && forall i :: 0 <= i < |input| ==> logits[i] == model(old(cached) + input[..i + 1])
    {
      logits := [];
      for i := 0 to |input|
        invariant cached == old(cached) + input[..i]
        invariant |logits| == i && forall j :: 0 <= j < i ==> logits[j] == model(old(cached) + input[..j + 1])
      {
        cached := cached + [input[i]];
        assert cached == old(cached) + input[..i + 1];
        logits := logits + [model(cached)];
      }
      assert input[..|input|] == input;
    }

    method TruncateCache(target: nat)
      requires target <= |cached|
      modifies this
      ensures cached == old(cached)[..target]
    {
      cached := cached[..target];
    }
  }

  datatype Phase = Prefilling(remaining: nat) | Decoding(generated: nat) | Finished(reason: FinishReason)

  function PrefillPhase(remaining: nat): Phase {
    if remaining == 0 then Decoding(0) else Prefilling(remaining)
  }

  /** A request without a draft: its tokens, how far its input is prefilled, and what the cache holds. */
  datatype TargetState = TargetState(tokens: seq<Token>, position: nat, phase: Phase, cached: seq<Token>)

  /** The token after the committed ones is sampled, and committed unless it ends the sequence. */
  function SampledNext(p: Params, target: Model, st: TargetState, generated: nat): TargetState {
    var next := NextToken(p, target, st.tokens);
    if next in p.eos then st.(phase := Finished(EndOfSequence))
    else
      st.(tokens := st.tokens + [next],
          phase := if generated + 1 < p.maxNew then Decoding(generated + 1) else Finished(MaxNewTokensReached))
  }

  /** One target-only step: a prefill chunk within the budget, or one decode. */
  function TargetStep(p: Params, target: Model, input: seq<Token>, st: TargetState, budget: nat): TargetState {
    match st.phase
    case Prefilling(_) =>
      var end := Min(st.position + budget, |input|);
      var passed := st.(position := end, cached := input[..end]);
      if end < |input| then passed.(phase := Prefilling(|input| - end)) else SampledNext(p, target, passed, 0)
    case Decoding(generated) => SampledNext(p, target, st.(cached := st.tokens), generated)
    case Finished(_) => st
  }

  class RequestExecution {
    const p: Params
    const input: seq<Token>
    const target: ModelInstance
    const draft: ModelInstance?
    const controller: DraftTokenCountController?
    var tokens: seq<Token>
    var targetPosition: nat
    var draftPosition: nat
    var phase: Phase

    ghost function Parts(): set<object> {
      {target} + (if draft == null then {} else {draft}) + (if controller == null then {} else {controller})
    }

    ghost predicate Wired()
      reads Parts()
    {
      && input != [] && p.maxNew > 0 && (draft == null <==> controller == null)
      && target.limit == |input| + p.maxNew - 1
      && (draft != null ==> draft != target && draft.limit == target.limit)
      && (controller != null ==> controller.Valid())
    }

    /** Where a prefill stands: both caches hold the input up to their own position, and target-only prefill
        runs to the end of the input while speculative prefill stops one token before it. */
    ghost predicate InPrefill(remaining: nat)
      reads this, Parts()
    {
      && tokens == input && targetPosition < |input| && target.cached == input[..targetPosition]
      && (draft == null ==> remaining == |input| - targetPosition)
      && (draft != null ==>
            && draftPosition < |input| && draft.cached == input[..draftPosition]
            && remaining == |input| - 1 - Min(targetPosition, draftPosition))
    }

    /** Where decoding stands: both caches hold all committed tokens but the last. */
    ghost predicate InDecode(generated: nat)
      reads this, Parts()
    {
      && input != [] && generated < p.maxNew && |tokens| == |input| + generated && input <= tokens
      && target.cached == tokens[..|tokens| - 1]
      && (draft != null ==> draft.cached == tokens[..|tokens| - 1])
    }

    /** What the request will have committed in the end, if decoding goes on from here. */
    ghost function Expected(): Outcome
      reads this
    {
      match phase
      case Prefilling(_) => Reference(p, target.model, tokens, p.maxNew)
      case Decoding(g) => Reference(p, target.model, tokens, if g <= p.maxNew then p.maxNew - g else 0)
      case Finished(reason) => Outcome(tokens, reason)
    }

    ghost predicate Valid()
      reads this, Parts()
    {
      && Wired()
      && Expected() == Reference(p, target.model, input, p.maxNew)
      && match phase
         case Prefilling(remaining) => remaining > 0 && InPrefill(remaining)
         case Decoding(generated) => InDecode(generated)
         case Finished(_) => true
    }

    ghost function Alone(): TargetState
      reads this, target
    {
      TargetState(tokens, targetPosition, phase, target.cached)
    }

    /** Steps left at most. */
    ghost function Measure(): nat
      reads this
    {
      match phase
      case Prefilling(remaining) => p.maxNew + 1 + remaining
      case Decoding(g) => if g <= p.maxNew then p.maxNew - g else 0
      case Finished(_) => 0
    }

    constructor (params: Params, inputTokens: seq<Token>, t: ModelInstance, d: ModelInstance?, c: DraftTokenCountController?)
      requires inputTokens != [] && params.maxNew > 0 && (d == null <==> c == null)
      requires t.limit == |inputTokens| + params.maxNew - 1 && t.cached <= inputTokens && |t.cached| < |inputTokens|
      requires d != null ==> d != t && d.limit == t.limit && d.cached <= inputTokens && |d.cached| < |inputTokens|
      requires c != null ==> c.Valid()
      ensures Valid() && p == params && input == inputTokens && target == t && draft == d && controller == c && fresh(this)
    {
      p, input, target, draft, controller := params, inputTokens, t, d, c;
      tokens := inputTokens;
      targetPosition := |t.cached|;
      draftPosition := if d == null then 0 else |d.cached|;
      phase := if d == null then PrefillPhase(|inputTokens| - |t.cached|)
               else PrefillPhase(|inputTokens| - 1 - Min(|t.cached|, |d.cached|));
    }

    method CommitNextToken(next: Token) returns (continues: bool)
      modifies this`tokens
      ensures continues <==> next !in p.eos
      ensures tokens == if continues then old(tokens) + [next] else old(tokens)
    {
      if next in p.eos { return false; }
      tokens := tokens + [next];
      continues := true;
    }

    /** The phase after a decode step. */
    function DecodePhase(generated: nat, continues: bool): Phase {
      if !continues then Finished(EndOfSequence)
      else if generated < p.maxNew then Decoding(generated)
      else Finished(MaxNewTokensReached)
    }

    /** Target-only: one prefill chunk within the token budget, or one decode. */
    method StepTargetOnly(budget: nat)
      requires Valid() && draft == null && !phase.Finished? && budget > 0
      modifies this, target
      ensures Valid() && old(tokens) <= tokens && Measure() < old(Measure())
      ensures Alone() == TargetStep(p, target.model, input, old(Alone()), budget)
      ensures |tokens| == |old(tokens)| + if phase.Prefilling? || phase == Finished(EndOfSequence) then 0 else 1
      ensures |target.cached| == if old(phase).Prefilling? then Min(old(targetPosition) + budget, |input|) else |old(tokens)|
    {
      match phase
      case Prefilling(_) =>
        var start := targetPosition;
        var end := Min(start + budget, |input|);
        assert input[..start] + input[start..end] == input[..end];
        var logits := target.Forward(input[start..end], start);
        targetPosition := end;
        if end < |input| {
          phase := PrefillPhase(|input| - end);
        } else {
          assert input[start..end][..end - start] == input[start..end] && input[..end] == input;
          assert logits[end - start - 1] == target.model(input);
          SampleAndCommit(logits[end - start - 1], 0);
        }
      case Decoding(generated) =>
        var logits := target.Forward([Last(tokens)], |tokens| - 1);
        assert [Last(tokens)][..1] == [Last(tokens)];
        assert tokens[..|tokens| - 1] + [Last(tokens)] == tokens;
        SampleAndCommit(logits[0], generated);
    }

    /** Samples the target's token after the committed tokens, commits it and moves to the next phase. */
    method SampleAndCommit(logits: Logits, generated: nat)
      requires Wired() && draft == null && generated < p.maxNew && |tokens| == |input| + generated && input <= tokens
      requires target.cached == tokens && logits == target.model(tokens)
      requires Reference(p, target.model, tokens, p.maxNew - generated) == Reference(p, target.model, input, p.maxNew)
      modifies this
      ensures Valid() && old(tokens) <= tokens && Measure() <= p.maxNew - generated - 1 && !phase.Prefilling?
      ensures Alone() == SampledNext(p, target.model, old(Alone()), generated)
      ensures |tokens| == |old(tokens)| + if phase == Finished(EndOfSequence) then 0 else 1
    {
      var next := SampleGreedy(p, logits, tokens, []);
      WindowIsSuffix(tokens, [], p.lastN);
      assert tokens + [] == tokens;
      ghost var before := tokens;
      var continues := CommitNextToken(next);
      assert continues ==> tokens[..|tokens| - 1] == before;
      phase := DecodePhase(generated + (if continues then 1 else 0), continues);
    }

    /** Speculative prefill: each cache that lags behind the end of the chunk is brought up to it. */
    method StepSpeculativePrefill(budget: nat)
      requires Valid() && draft != null && phase.Prefilling? && budget > 0
      modifies this, target, draft
      ensures Valid() && tokens == old(tokens) && Measure() < old(Measure())
      ensures phase.Decoding? ==> targetPosition == draftPosition == |input| - 1
      ensures var end := Min(Min(old(targetPosition), old(draftPosition)) + budget, |input| - 1);
              && targetPosition == |target.cached| == Max(old(targetPosition), end)
              && draftPosition == |draft.cached| == Max(old(draftPosition), end)
    {
      var end := Min(Min(targetPosition, draftPosition) + budget, |input| - 1);
      if targetPosition < end {
        assert input[..targetPosition] + input[targetPosition..end] == input[..end];
        var _ := target.Forward(input[targetPosition..end], targetPosition);
        targetPosition := end;
      }
      if draftPosition < end {
        assert input[..draftPosition] + input[draftPosition..end] == input[..end];
        var _ := draft.Forward(input[draftPosition..end], draftPosition);
        draftPosition := end;
      }
      phase := PrefillPhase(|input| - 1 - Min(targetPosition, draftPosition));
    }

    /** The draft model extends its proposal token by token. */
    method GenerateProposal(most: nat) returns (proposal: seq<Token>)
      requires Wired() && draft != null && most > 0 && tokens != [] && draft.cached == tokens[..|tokens| - 1]
      requires |tokens| - 1 + most <= draft.limit
      modifies draft
      ensures proposal == ProposeFrom(p, draft.model, tokens, [], most) && 0 < |proposal| <= most
      ensures draft.cached == ProposalCache(tokens, proposal)
    {
      hide ProposeFrom, ProposalCache;
      ProposalStarts(tokens);
      proposal := [];
      while |proposal| < most && (proposal == [] || Last(proposal) !in p.eos)
        invariant |proposal| <= most && draft.cached == ProposalCache(tokens, proposal)
        invariant ProposeFrom(p, draft.model, tokens, proposal, most) == ProposeFrom(p, draft.model, tokens, [], most)
        decreases most - |proposal|
      {
        var fed := if proposal == [] then Last(tokens) else Last(proposal);
        ProposalStep(p, draft.model, tokens, proposal, most, fed);
        var logits := draft.Forward([fed], |tokens| - 1 + |proposal|);
        assert [fed][..1] == [fed];
        proposal := proposal + [SampleGreedy(p, logits[0], tokens, proposal)];
      }
      ProposalEnds(p, draft.model, tokens, proposal, most);
    }

    /** Compares each proposed token with the target's choice, up to the first difference or an accepted end
        of sequence. */
    method VerifyProposal(proposal: seq<Token>, logits: seq<Logits>) returns (v: Verification)
      requires |logits| == |proposal|
      ensures v == VerifyFrom(p, tokens, proposal, logits, 0)
    {
      var i := 0;
      while i < |proposal|
        invariant i <= |proposal| && VerifyFrom(p, tokens, proposal, logits, i) == VerifyFrom(p, tokens, proposal, logits, 0)
        decreases |proposal| - i
      {
        var chosen := SampleGreedy(p, logits[i], tokens, proposal[..i]);
        if chosen != proposal[i] { return Verification(i, Some(chosen)); }
        i := i + 1;
        if proposal[i - 1] in p.eos { break; }
      }
      v := Verification(i, None);
    }

    /** Publishes the accepted tokens, then the replacement, and stops at an end of sequence. */
    method CommitSpeculativeTokens(accepted: seq<Token>, replacement: Option<Token>) returns (count: nat, continues: bool)
      modifies this`tokens
      ensures Commit(tokens, count, continues) == CommitFrom(p, old(tokens), accepted, replacement, 0)
    {
      count := 0;
      assert accepted[0..] == accepted;
      for i := 0 to |accepted|
        invariant CommitFrom(p, tokens, accepted[i..], replacement, count) == CommitFrom(p, old(tokens), accepted, replacement, 0)
      {
        assert accepted[i..][1..] == accepted[i + 1..];
        var going := CommitNextToken(accepted[i]);
        if !going { return count, false; }
        count := count + 1;
      }
      if replacement.Some? {
        var going := CommitNextToken(replacement.value);
        if !going { return count, false; }
        count := count + 1;
      }
      continues := true;
    }

    /** One speculative iteration: propose, verify in one target pass, roll both caches back to the verified
        prefix, commit. */
    method StepSpeculativeDecode()
      requires Valid() && draft != null && phase.Decoding?
      modifies this, target, draft, controller
      ensures Valid() && old(tokens) <= tokens && Measure() < old(Measure())
      ensures phase.Decoding? ==> target.cached == draft.cached == tokens[..|tokens| - 1]
      ensures var proposal := ProposeFrom(p, draft.model, old(tokens), [], Min(old(controller.current), p.maxNew - old(phase).generated));
              Completed(proposal, TargetLogits(target.model, old(tokens), proposal), old(tokens), old(phase).generated, old(controller.Value()))
    {
      hide ProposeFrom, ProposalCache, VerificationLogits, Reference;
      var generated := phase.generated;
      var remaining := p.maxNew - generated;
      var proposal := GenerateProposal(Min(controller.current, remaining));
      var verified := [Last(tokens)] + proposal[..|proposal| - 1];
      VerificationInputs(target.model, tokens, proposal, verified);
      var logits := target.Forward(verified, |tokens| - 1);
      LogitsAnswerProposal(target.model, tokens, proposal, verified, logits);
      AnswersAreLogits(target.model, tokens, proposal, logits);
      CompleteIteration(proposal, logits, generated);
    }

    /** Discards the cache entries of rejected tokens in both caches. */
    method RollBack(retained: nat)
      requires draft != null && draft != target && retained <= |target.cached| && draft.cached == target.cached
      modifies target, draft
      ensures target.cached == draft.cached == old(target.cached)[..retained]
    {
      target.TruncateCache(retained);
      draft.TruncateCache(retained);
    }

    /** What a verified proposal leaves: its accepted tokens and the replacement committed, the phase after so
        many more tokens, and a draft count that follows the accepted and the proposed number of tokens. */
    ghost predicate Completed(proposal: seq<Token>, logits: seq<Logits>, before: seq<Token>, generated: nat, counts: Counts)
      reads this, Parts()
    {
      && |logits| == |proposal| && controller != null && ValidPolicy(controller.policy) && InLimits(controller.policy, counts)
      && var v := VerifyFrom(p, before, proposal, logits, 0);
         var c := CommitFrom(p, before, proposal[..v.accepted], v.replacement, 0);
         && tokens == c.tokens && phase == DecodePhase(generated + c.count, c.continues)
         && controller.Value() == Adapted(controller.policy, counts, v.accepted, |proposal|)
    }

    /** Verifies a proposal, rolls both caches back to the verified prefix and commits. */
    method CompleteIteration(proposal: seq<Token>, logits: seq<Logits>, generated: nat)
      requires Wired() && draft != null && generated < p.maxNew && |tokens| == |input| + generated && input <= tokens
      requires |logits| == |proposal| && 0 < |proposal| <= p.maxNew - generated && VerificationLogits(target.model, tokens, proposal, logits)
      requires target.cached == ProposalCache(tokens, proposal) && draft.cached == ProposalCache(tokens, proposal)
      requires Reference(p, target.model, tokens, p.maxNew - generated) == Reference(p, target.model, input, p.maxNew)
      modifies this, target, draft, controller
      ensures Valid() && !phase.Prefilling? && Measure() < p.maxNew - generated && old(tokens) <= tokens
      ensures Completed(proposal, logits, old(tokens), generated, old(controller.Value()))
    {
      hide ProposalCache, VerificationLogits, Reference, VerifyFrom, CommitFrom;
      ghost var c := IterationOutcome(p, target.model, tokens, proposal, logits, p.maxNew - generated);
      var v := VerifyProposal(proposal, logits);
      assert v.accepted <= |proposal|;
      var ok := controller.Update(v.accepted, |proposal|);
      assert ok;
      RollBack(|tokens| - 1 + v.accepted + (if v.replacement.Some? then 1 else 0));
      var count, continues := CommitSpeculativeTokens(proposal[..v.accepted], v.replacement);
      assert c == Commit(tokens, count, continues);
      phase := DecodePhase(generated + count, continues);
    }

    /** One step in either mode. */
    method Step(budget: nat)
      requires Valid() && !phase.Finished? && budget > 0
      modifies this, Parts()
      ensures Valid() && Measure() < old(Measure())
    {
      if draft == null {
        StepTargetOnly(budget);
      } else if phase.Prefilling? {
        StepSpeculativePrefill(budget);
      } else {
        StepSpeculativeDecode();
      }
    }

    /** Every run ends, with or without a draft model and whatever the token budgets, in what greedy
        target-only decoding of the input gives. */
    method RunToCompletion(budgets: nat -> nat)
      requires Valid() && forall n :: budgets(n) > 0
      modifies this, Parts()
      ensures phase.Finished? && Outcome(tokens, phase.reason) == Reference(p, target.model, input, p.maxNew)
    {
      var n := 0;
      while !phase.Finished?
        invariant Valid()
        decreases Measure()
      {
        Step(budgets(n));
        n := n + 1;
      }
    }
  }

  lemma ProposalStarts(tokens: seq<Token>)
    requires tokens != []
    ensures ProposalCache(tokens, []) == tokens[..|tokens| - 1]
  {
    assert tokens + [] == tokens;
  }

  lemma ProposalStep(p: Params, draft: Model, tokens: seq<Token>, proposal: seq<Token>, most: nat, fed: Token)
    requires tokens != [] && |proposal| < most && (proposal == [] || Last(proposal) !in p.eos)
    requires fed == if proposal == [] then Last(tokens) else Last(proposal)
    ensures |ProposalCache(tokens, proposal)| == |tokens| - 1 + |proposal|
    ensures var next := proposal + [SampleGreedy(p, draft(ProposalCache(tokens, proposal) + [fed]), tokens, proposal)];
            && ProposalCache(tokens, next) == ProposalCache(tokens, proposal) + [fed]
            && ProposeFrom(p, draft, tokens, next, most) == ProposeFrom(p, draft, tokens, proposal, most)
  {
    assert ProposalCache(tokens, proposal) + [fed] == tokens + proposal;
  }

  lemma ProposalEnds(p: Params, draft: Model, tokens: seq<Token>, proposal: seq<Token>, most: nat)
    requires |proposal| <= most && most > 0 && (|proposal| >= most || (proposal != [] && Last(proposal) in p.eos))
    ensures ProposeFrom(p, draft, tokens, proposal, most) == proposal && |proposal| > 0
  {
  }

  /** The verification pass feeds the last committed token and every proposed token but the last, so its
      logits answer for the proposed tokens one by one. */
  lemma VerificationInputs(target: Model, tokens: seq<Token>, proposal: seq<Token>, verified: seq<Token>)
    requires tokens != [] && proposal != [] && verified == [Last(tokens)] + proposal[..|proposal| - 1]
    ensures |verified| == |proposal| && tokens[..|tokens| - 1] + verified == ProposalCache(tokens, proposal)
  {
  }

  lemma LogitsAnswerProposal(target: Model, tokens: seq<Token>, proposal: seq<Token>, verified: seq<Token>, logits: seq<Logits>)
    requires tokens != [] && proposal != [] && verified == [Last(tokens)] + proposal[..|proposal| - 1]
    requires |logits| == |verified| && forall i :: 0 <= i < |verified| ==> logits[i] == target(tokens[..|tokens| - 1] + verified[..i + 1])
    ensures VerificationLogits(target, tokens, proposal, logits)
  {
    forall i | 0 <= i < |proposal| ensures logits[i] == target(tokens + proposal[..i]) {
      assert tokens[..|tokens| - 1] + verified[..i + 1] == tokens + proposal[..i];
    }
  }

  lemma AnswersAreLogits(target: Model, tokens: seq<Token>, proposal: seq<Token>, logits: seq<Logits>)
    requires VerificationLogits(target, tokens, proposal, logits)
    ensures logits == TargetLogits(target, tokens, proposal)
  {
  }

  /** The refinement of one iteration, in terms of the caches and the committed tokens. */
  lemma IterationOutcome(p: Params, target: Model, tokens: seq<Token>, proposal: seq<Token>, logits: seq<Logits>, remaining: nat)
      returns (c: Commit)
    requires tokens != [] && 0 < |proposal| <= remaining && VerificationLogits(target, tokens, proposal, logits)
    ensures var v := VerifyFrom(p, tokens, proposal, logits, 0);
            var retained := |tokens| - 1 + v.accepted + (if v.replacement.Some? then 1 else 0);
            && c == CommitFrom(p, tokens, proposal[..v.accepted], v.replacement, 0)
            && tokens <= c.tokens && |c.tokens| == |tokens| + c.count && c.count <= remaining && (c.continues ==> c.count > 0)
            && retained <= |ProposalCache(tokens, proposal)|
            && (c.continues ==> ProposalCache(tokens, proposal)[..retained] == c.tokens[..|c.tokens| - 1])
            && (!c.continues ==> Outcome(c.tokens, EndOfSequence) == Reference(p, target, tokens, remaining))
            && (c.continues && c.count == remaining ==> Outcome(c.tokens, MaxNewTokensReached) == Reference(p, target, tokens, remaining))
            && (c.continues && c.count < remaining ==>
                  Reference(p, target, c.tokens, remaining - c.count) == Reference(p, target, tokens, remaining))
  {
    SpeculativeIterationRefines(p, target, tokens, proposal, logits, remaining);
    var v := VerifyFrom(p, tokens, proposal, logits, 0);
    CommitExtends(p, tokens, proposal[..v.accepted], v.replacement, 0);
    c := CommitFrom(p, tokens, proposal[..v.accepted], v.replacement, 0);
    var retained := RetainedCount(tokens, v);
    assert ProposalCache(tokens, proposal)[..retained] == (tokens + proposal)[..retained];
  }

  lemma {:induction false} CommitExtends(p: Params, tokens: seq<Token>, accepted: seq<Token>, replacement: Option<Token>, count: nat)
    ensures tokens <= CommitFrom(p, tokens, accepted, replacement, count).tokens
    decreases |accepted|
  {
    if accepted != [] && accepted[0] !in p.eos {
      CommitExtends(p, tokens + [accepted[0]], accepted[1..], replacement, count + 1);
    }
  }
}
