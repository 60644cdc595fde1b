/** Greedy decoding: the reference that feeds one token at a time to the target model, the repetition
    window, and one speculative iteration with its verification and commit. Logits are opaque values;
    a model is any function from a token prefix to logits. */
module GreedyDecoding {
  import opened Common

  type Logits = nat
  type Model = seq<Token> -> Logits

  datatype FinishReason = EndOfSequence | MaxNewTokensReached

  /** `pick` is argmax after the repetition penalty for the tokens of the window. */
  datatype Params = Params(maxNew: nat, eos: set<Token>, lastN: nat, pick: (Logits, seq<Token>) -> Token)

  function LastTokens(s: seq<Token>, n: nat): seq<Token> {
    if |s| <= n then s else s[|s| - n..]
  }

  /** The repetition window, put together from the committed context and the speculative prefix. */
  function RepeatWindow(committed: seq<Token>, appended: seq<Token>, lastN: nat): seq<Token> {
    var total := |committed| + |appended|;
    var start := Max(total - lastN, 0);
    (if start < |committed| then committed[start..] else []) + appended[Max(start - |committed|, 0)..]
  }

  /** The window is a suffix of the whole sequence: where the committed part ends makes no difference. */
  lemma WindowIsSuffix(committed: seq<Token>, appended: seq<Token>, lastN: nat)
    ensures RepeatWindow(committed, appended, lastN) == LastTokens(committed + appended, lastN)
    ensures var (all, window) := (committed + appended, RepeatWindow(committed, appended, lastN));
            |window| == Min(|all|, lastN) && window == all[|all| - |window|..]
  {
  }

  function SampleGreedy(p: Params, logits: Logits, committed: seq<Token>, appended: seq<Token>): Token {
    p.pick(logits, RepeatWindow(committed, appended, p.lastN))
  }

  /** The token that follows a prefix under the target model. */
  function NextToken(p: Params, target: Model, prefix: seq<Token>): Token {
    p.pick(target(prefix), LastTokens(prefix, p.lastN))
  }

  datatype Outcome = Outcome(tokens: seq<Token>, reason: FinishReason)

  /** Greedy target-only decoding: append the target's token until the end of sequence or the limit. */
  function Reference(p: Params, target: Model, tokens: seq<Token>, remaining: nat): Outcome
    decreases remaining
  {
    if remaining == 0 then Outcome(tokens, MaxNewTokensReached)
    else
      var t := NextToken(p, target, tokens);
      if t in p.eos then Outcome(tokens, EndOfSequence) else Reference(p, target, tokens + [t], remaining - 1)
  }

  // ---- One speculative iteration --------------------------------------------------------------

  datatype Verification = Verification(accepted: nat, replacement: Option<Token>)

  /** Verifies the draft tokens from position i on against the target's logits. */
  function VerifyFrom(p: Params, tokens: seq<Token>, draft: seq<Token>, logits: seq<Logits>, i: nat): (v: Verification)
    requires i <= |draft| == |logits|
    ensures i <= v.accepted <= |draft| && (v.replacement.Some? ==> v.accepted < |draft|)
    ensures v.replacement.None? ==> v.accepted == |draft| || v.accepted > i
    decreases |draft| - i
  {
    if i == |draft| then Verification(i, None)
    else
      var t := SampleGreedy(p, logits[i], tokens, draft[..i]);
      if t != draft[i] then Verification(i, Some(t))
      else if draft[i] in p.eos then Verification(i + 1, None)
      else VerifyFrom(p, tokens, draft, logits, i + 1)
  }

  /** The first n draft tokens are what target-only decoding would choose in their place, none of them but the
      last ends the sequence, and there is a reason to stop there: the draft is used up, its last accepted
      token ends the sequence, or the target chooses differently next. */
  ghost predicate AgreesUpTo(p: Params, target: Model, tokens: seq<Token>, draft: seq<Token>, n: nat) {
    && n <= |draft|
    && (forall j :: 0 <= j < n ==> draft[j] == NextToken(p, target, tokens + draft[..j]))
    && (forall j :: 0 <= j < n - 1 ==> draft[j] !in p.eos)
    && (n == |draft| || (n > 0 && draft[n - 1] in p.eos) || draft[n] != NextToken(p, target, tokens + draft[..n]))
  }

  /** Verification accepts every draft token up to the first difference or an accepted end of sequence, and
      replaces exactly a token that differs by the target's choice. */
  lemma VerificationExact(p: Params, target: Model, tokens: seq<Token>, draft: seq<Token>, logits: seq<Logits>)
    requires VerificationLogits(target, tokens, draft, logits)
    ensures var v := VerifyFrom(p, tokens, draft, logits, 0);
            && AgreesUpTo(p, target, tokens, draft, v.accepted)
            && (v.replacement == None <==> v.accepted == |draft| || (v.accepted > 0 && draft[v.accepted - 1] in p.eos))
            && (v.replacement.Some? ==> v.replacement.value == NextToken(p, target, tokens + draft[..v.accepted]) != draft[v.accepted])
  {
    VerificationFrom(p, target, tokens, draft, logits, 0);
  }

  /** What the logits of a verification are sampled to is the target's own next token. */
  lemma TargetSamples(p: Params, target: Model, tokens: seq<Token>, draft: seq<Token>, logits: seq<Logits>, i: nat)
    requires VerificationLogits(target, tokens, draft, logits) && i < |draft|
    ensures SampleGreedy(p, logits[i], tokens, draft[..i]) == NextToken(p, target, tokens + draft[..i])
  {
    WindowIsSuffix(tokens, draft[..i], p.lastN);
  }

  lemma {:induction false} VerificationFrom(p: Params, target: Model, tokens: seq<Token>, draft: seq<Token>, logits: seq<Logits>, i: nat)
    requires VerificationLogits(target, tokens, draft, logits) && i <= |draft|
    requires forall j :: 0 <= j < i ==> draft[j] == NextToken(p, target, tokens + draft[..j]) && draft[j] !in p.eos
    ensures var v := VerifyFrom(p, tokens, draft, logits, i);
            && AgreesUpTo(p, target, tokens, draft, v.accepted)
            && (v.replacement == None <==> v.accepted == |draft| || (v.accepted > 0 && draft[v.accepted - 1] in p.eos))
            && (v.replacement.Some? ==> v.replacement.value == NextToken(p, target, tokens + draft[..v.accepted]) != draft[v.accepted])
    decreases |draft| - i
  {
    if i < |draft| {
      TargetSamples(p, target, tokens, draft, logits, i);
      var t := SampleGreedy(p, logits[i], tokens, draft[..i]);
      if t == draft[i] && draft[i] !in p.eos { VerificationFrom(p, target, tokens, draft, logits, i + 1); }
    }
  }

  datatype Commit = Commit(tokens: seq<Token>, count: nat, continues: bool)

  /** Commits accepted tokens, then the replacement, and stops at an end of sequence. */
  function CommitFrom(p: Params, tokens: seq<Token>, accepted: seq<Token>, replacement: Option<Token>, count: nat): Commit
    decreases |accepted|
  {
    if accepted != [] then
      if accepted[0] in p.eos then Commit(tokens, count, false)
      else CommitFrom(p, tokens + [accepted[0]], accepted[1..], replacement, count + 1)
    else if replacement.Some? then
      if replacement.value in p.eos then Commit(tokens, count, false) else Commit(tokens + [replacement.value], count + 1, true)
    else Commit(tokens, count, true)
  }

  /** The phase after an iteration that started with `remaining` tokens to generate. */
  function AfterCommit(p: Params, target: Model, c: Commit, remaining: nat): Outcome
    requires c.count <= remaining
  {
    if !c.continues then Outcome(c.tokens, EndOfSequence)
    else if c.count == remaining then Outcome(c.tokens, MaxNewTokensReached)
    else Reference(p, target, c.tokens, remaining - c.count)
  }

  /** The target's logits for verifying a draft, from one forward pass over the draft. */
  ghost predicate VerificationLogits(target: Model, tokens: seq<Token>, draft: seq<Token>, logits: seq<Logits>) {
    |logits| == |draft| && forall i :: 0 <= i < |draft| ==> logits[i] == target(tokens + draft[..i])
  }

  /** What verification and commit have established about draft tokens before position i. */
  lemma {:induction false} VerifiedPrefix(p: Params, target: Model, tokens: seq<Token>, draft: seq<Token>, logits: seq<Logits>,
                                          i: nat, remaining: nat)
    requires VerificationLogits(target, tokens, draft, logits) && i <= |draft| <= remaining
    ensures var v := VerifyFrom(p, tokens, draft, logits, i);
            var c := CommitFrom(p, tokens + draft[..i], draft[i..v.accepted], v.replacement, i);
            && i <= c.count <= |draft|
            && AfterCommit(p, target, c, remaining) == Reference(p, target, tokens + draft[..i], remaining - i)
            && (|draft| > i && c.continues ==> c.count > i)
            && (c.continues ==>
                  && c.count == v.accepted + (if v.replacement.Some? then 1 else 0)
                  && c.tokens == tokens + draft[..v.accepted] + (if v.replacement.Some? then [v.replacement.value] else []))
            && (!c.continues ==>
                  && c.tokens == (tokens + draft)[..|tokens| + c.count]
                  && c.count == v.accepted + (if v.replacement.Some? then 1 else 0) - 1)
    decreases |draft| - i
  {
    hide SampleGreedy, NextToken;
    var v := VerifyFrom(p, tokens, draft, logits, i);
    if i == |draft| {
      assert draft[i..v.accepted] == [] && tokens + draft[..i] + [] == tokens + draft[..i];
    } else {
      var t := SampleGreedy(p, logits[i], tokens, draft[..i]);
      TargetSamples(p, target, tokens, draft, logits, i);
      if t != draft[i] {
        ReplacementStep(p, target, tokens, draft, i, t, remaining);
      } else {
        AcceptedStep(tokens, draft, i);
        if draft[i] in p.eos {
          assert draft[i..i + 1] == [draft[i]];
          assert (tokens + draft)[..|tokens| + i] == tokens + draft[..i];
        } else {
          VerifiedPrefix(p, target, tokens, draft, logits, i + 1, remaining);
          assert draft[i..v.accepted][1..] == draft[i + 1..v.accepted] && draft[i..v.accepted][0] == draft[i];
        }
      }
    }
  }

  lemma AcceptedStep(tokens: seq<Token>, draft: seq<Token>, i: nat)
    requires i < |draft|
    ensures tokens + draft[..i] + [draft[i]] == tokens + draft[..i + 1]
  {
  }

  lemma ReplacementStep(p: Params, target: Model, tokens: seq<Token>, draft: seq<Token>, i: nat, t: Token, remaining: nat)
    requires i < |draft| <= remaining && t == NextToken(p, target, tokens + draft[..i])
    ensures var c := CommitFrom(p, tokens + draft[..i], draft[i..i], Some(t), i);
            && AfterCommit(p, target, c, remaining) == Reference(p, target, tokens + draft[..i], remaining - i)
            && (c.continues ==> c.count == i + 1 && c.tokens == tokens + draft[..i] + [t])
            && (!c.continues ==> c.count == i && c.tokens == (tokens + draft)[..|tokens| + i])
  {
    assert draft[i..i] == [];
    assert (tokens + draft)[..|tokens| + i] == tokens + draft[..i];
    var next := tokens + draft[..i] + [t];
    if remaining - i - 1 == 0 { assert Reference(p, target, next, 0) == Outcome(next, MaxNewTokensReached); }
  }

  /** The cached prefix an iteration keeps: what was cached before, the accepted tokens, and one more for
      a replacement. */
  function RetainedCount(tokens: seq<Token>, v: Verification): nat
    requires tokens != []
  {
    |tokens| - 1 + v.accepted + (if v.replacement.Some? then 1 else 0)
  }

  /** One speculative iteration refines target-only decoding, whatever the draft proposed: what it commits
      is what the reference would commit, it makes progress or finishes, and truncating both caches to
      the retained count leaves them at the committed tokens, minus the last one while decoding goes
      on. */
  lemma SpeculativeIterationRefines(p: Params, target: Model, tokens: seq<Token>, draft: seq<Token>, logits: seq<Logits>, remaining: nat)
    requires tokens != [] && 0 < |draft| <= remaining && VerificationLogits(target, tokens, draft, logits)
    ensures var v := VerifyFrom(p, tokens, draft, logits, 0);
            var c := CommitFrom(p, tokens, draft[..v.accepted], v.replacement, 0);
            && c.count <= |draft| && AfterCommit(p, target, c, remaining) == Reference(p, target, tokens, remaining)
            && (c.continues ==> c.count > 0)
            && |c.tokens| == |tokens| + c.count && c.tokens != []
            && |tokens| - 1 <= RetainedCount(tokens, v) <= |tokens| + |draft| - 1
            && (tokens + draft)[..RetainedCount(tokens, v)] == (if c.continues then c.tokens[..|c.tokens| - 1] else c.tokens)
  {
    VerifiedPrefix(p, target, tokens, draft, logits, 0, remaining);
    assert tokens + draft[..0] == tokens;
    var v := VerifyFrom(p, tokens, draft, logits, 0);
    assert draft[0..v.accepted] == draft[..v.accepted];
    var c := CommitFrom(p, tokens, draft[..v.accepted], v.replacement, 0);
    assert (tokens + draft)[..|tokens| + v.accepted] == tokens + draft[..v.accepted];
    if c.continues && v.replacement.None? {
      assert v.accepted > 0;
      assert (tokens + draft)[..|tokens| + v.accepted - 1] == (tokens + draft[..v.accepted])[..|tokens| + v.accepted - 1];
    }
  }

  // ---- Whole runs -----------------------------------------------------------------------------

  /** A draft model with a draft-count policy, as far as the target can tell: given every verification so
      far, each the accepted and the proposed number of tokens, it proposes between one token and as
      many as may still be generated. */
  type Proposer = (seq<(nat, nat)>, seq<Token>, nat) -> seq<Token>

  ghost predicate ProposesEnough(propose: Proposer) {
    forall verified: seq<(nat, nat)>, tokens: seq<Token>, n: nat :: n > 0 ==> 0 < |propose(verified, tokens, n)| <= n
  }

  function TargetLogits(target: Model, tokens: seq<Token>, draft: seq<Token>): (logits: seq<Logits>)
    ensures VerificationLogits(target, tokens, draft, logits)
  {
    seq(|draft|, i requires 0 <= i < |draft| => target(tokens + draft[..i]))
  }

  ghost function SpeculativeRun(p: Params, target: Model, propose: Proposer, verified: seq<(nat, nat)>, tokens: seq<Token>, remaining: nat): Outcome
    requires tokens != [] && remaining > 0 && ProposesEnough(propose)
    decreases remaining
  {
    var draft := propose(verified, tokens, remaining);
    var logits := TargetLogits(target, tokens, draft);
    SpeculativeIterationRefines(p, target, tokens, draft, logits, remaining);
    var v := VerifyFrom(p, tokens, draft, logits, 0);
    var c := CommitFrom(p, tokens, draft[..v.accepted], v.replacement, 0);
    if !c.continues then Outcome(c.tokens, EndOfSequence)
    else if c.count == remaining then Outcome(c.tokens, MaxNewTokensReached)
    else SpeculativeRun(p, target, propose, verified + [(v.accepted, |draft|)], c.tokens, remaining - c.count)
  }

  /** Greedy speculative decoding commits the same tokens with the same finish reason as target-only
      decoding, for every draft model, draft-count policy, end-of-sequence set and window. */
  lemma {:induction false} SpeculativeRefinesTargetOnly(p: Params, target: Model, propose: Proposer, verified: seq<(nat, nat)>,
                                                        tokens: seq<Token>, remaining: nat)
    requires tokens != [] && remaining > 0 && ProposesEnough(propose)
    ensures SpeculativeRun(p, target, propose, verified, tokens, remaining) == Reference(p, target, tokens, remaining)
    decreases remaining
  {
    var draft := propose(verified, tokens, remaining);
    var logits := TargetLogits(target, tokens, draft);
    SpeculativeIterationRefines(p, target, tokens, draft, logits, remaining);
    var v := VerifyFrom(p, tokens, draft, logits, 0);
    var c := CommitFrom(p, tokens, draft[..v.accepted], v.replacement, 0);
    if c.continues && c.count < remaining {
      SpeculativeRefinesTargetOnly(p, target, propose, verified + [(v.accepted, |draft|)], c.tokens, remaining - c.count);
    }
  }

  /** The reference appends at most `remaining` tokens, and stops early only at an end of sequence. */
  lemma {:induction false} ReferenceLength(p: Params, target: Model, tokens: seq<Token>, remaining: nat)
    ensures var r := Reference(p, target, tokens, remaining);
            && tokens <= r.tokens && |r.tokens| <= |tokens| + remaining
            && (r.reason == MaxNewTokensReached <==> |r.tokens| == |tokens| + remaining)
    decreases remaining
  {
    if remaining > 0 {
      var t := NextToken(p, target, tokens);
      if t !in p.eos { ReferenceLength(p, target, tokens + [t], remaining - 1); }
    }
  }

  // ---- Draft proposals ------------------------------------------------------------------------

  predicate ProposalComplete(p: Params, proposal: seq<Token>, most: nat) {
    |proposal| >= most || (proposal != [] && Last(proposal) in p.eos)
  }

  /** The draft model extends its own proposal until the limit or an end of sequence. */
  function ProposeFrom(p: Params, draft: Model, tokens: seq<Token>, proposal: seq<Token>, most: nat): (r: seq<Token>)
    requires |proposal| <= most
    ensures proposal <= r && |r| <= most && ProposalComplete(p, r, most)
    decreases most - |proposal|
  {
    if ProposalComplete(p, proposal, most) then proposal
    else ProposeFrom(p, draft, tokens, proposal + [SampleGreedy(p, draft(tokens + proposal), tokens, proposal)], most)
  }

  /** What a draft model would generate by itself, the end of sequence included. */
  ghost predicate DraftsAlone(p: Params, draft: Model, tokens: seq<Token>, most: nat, proposal: seq<Token>) {
    var own := Reference(p, draft, tokens, most);
    if own.reason == MaxNewTokensReached then tokens + proposal == own.tokens
    else proposal != [] && Last(proposal) in p.eos && tokens + proposal[..|proposal| - 1] == own.tokens
         && Last(proposal) == NextToken(p, draft, own.tokens)
  }

  /** A proposal is the draft model's own target-only decoding, up to the limit. */
  lemma ProposalIsDraftsOwn(p: Params, draft: Model, tokens: seq<Token>, most: nat)
    ensures DraftsAlone(p, draft, tokens, most, ProposeFrom(p, draft, tokens, [], most))
  {
    assert tokens + [] == tokens;
    ProposalGoesOn(p, draft, tokens, [], most);
  }

  lemma {:induction false} ProposalGoesOn(p: Params, draft: Model, tokens: seq<Token>, proposal: seq<Token>, most: nat)
    requires |proposal| <= most && (proposal != [] ==> Last(proposal) !in p.eos)
    ensures var r := ProposeFrom(p, draft, tokens, proposal, most);
            var own := Reference(p, draft, tokens + proposal, most - |proposal|);
            if own.reason == MaxNewTokensReached then tokens + r == own.tokens
            else r != [] && Last(r) in p.eos && tokens + r[..|r| - 1] == own.tokens && Last(r) == NextToken(p, draft, own.tokens)
    decreases most - |proposal|
  {
    if |proposal| < most {
      WindowIsSuffix(tokens, proposal, p.lastN);
      var t := SampleGreedy(p, draft(tokens + proposal), tokens, proposal);
      var next := proposal + [t];
      assert t == NextToken(p, draft, tokens + proposal) && tokens + next == tokens + proposal + [t];
      if t in p.eos {
        assert next[..|next| - 1] == proposal;
      } else {
        ProposalGoesOn(p, draft, tokens, next, most);
      }
    }
  }

  /** One request's part of a batch: its committed tokens and how many tokens to propose. */
  datatype Context = Context(p: Params, tokens: seq<Token>, most: nat)

  /** The draft cache after a proposal: everything but the last proposed token went through the model. */
  function ProposalCache(tokens: seq<Token>, proposal: seq<Token>): seq<Token>
    requires tokens != []
  {
    (tokens + proposal)[..|tokens| + |proposal| - 1]
  }

  /** A partial proposal on its way to what the request would propose alone. */
  ghost predicate GrownAlone(draft: Model, c: Context, proposal: seq<Token>, cache: seq<Token>) {
    && c.tokens != [] && |proposal| <= c.most && cache == ProposalCache(c.tokens, proposal)
    && ProposeFrom(c.p, draft, c.tokens, proposal, c.most) == ProposeFrom(c.p, draft, c.tokens, [], c.most)
  }

  lemma GrowAlone(draft: Model, c: Context, proposal: seq<Token>, cache: seq<Token>, fed: Token)
    requires GrownAlone(draft, c, proposal, cache) && !ProposalComplete(c.p, proposal, c.most)
    requires fed == if proposal == [] then Last(c.tokens) else Last(proposal)
    ensures |cache| == |c.tokens| - 1 + |proposal|
    ensures GrownAlone(draft, c, proposal + [SampleGreedy(c.p, draft(cache + [fed]), c.tokens, proposal)], cache + [fed])
  {
    assert cache + [fed] == c.tokens + proposal;
    var next := proposal + [SampleGreedy(c.p, draft(cache + [fed]), c.tokens, proposal)];
    assert ProposalCache(c.tokens, next) == c.tokens + proposal;
  }

  function RoundsLeft(contexts: seq<Context>, proposals: seq<seq<Token>>): nat
    requires |proposals| == |contexts|
  {
    if contexts == [] then 0
    else Max(contexts[0].most - |proposals[0]|, 0) + RoundsLeft(contexts[1..], proposals[1..])
  }

  lemma {:induction false} RoundsMonotone(contexts: seq<Context>, before: seq<seq<Token>>, after: seq<seq<Token>>)
    requires |before| == |after| == |contexts| && forall k :: 0 <= k < |contexts| ==> |before[k]| <= |after[k]|
    ensures RoundsLeft(contexts, after) <= RoundsLeft(contexts, before)
    ensures forall k :: 0 <= k < |contexts| && |before[k]| < |after[k]| && |before[k]| < contexts[k].most ==>
              RoundsLeft(contexts, after) < RoundsLeft(contexts, before)
    decreases |contexts|
  {
    if contexts != [] {
      RoundsMonotone(contexts[1..], before[1..], after[1..]);
      forall k | 0 <= k < |contexts| && |before[k]| < |after[k]| && |before[k]| < contexts[k].most
        ensures RoundsLeft(contexts, after) < RoundsLeft(contexts, before)
      {
        if k > 0 { assert before[1..][k - 1] == before[k] && after[1..][k - 1] == after[k] && contexts[1..][k - 1] == contexts[k]; }
      }
    }
  }
}
