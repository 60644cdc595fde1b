/** One batched speculative step over several requests that share the target and the draft model: all
    requests are prepared, one draft pass prefills, a shrinking set of requests extends its proposals,
    one combined target pass prefills and verifies, and every request is completed. Each request ends
    as if it had been stepped alone. */
module RequestExecutionBatchObject {
  import opened Common
  import opened GreedyDecoding
  import opened RequestExecutionObject

  type Caches = map<RequestId, seq<Token>>

  datatype ForwardInput = ForwardInput(id: RequestId, tokens: seq<Token>, start: nat)

  /** `RequestExecutionState`. The draft-token count is any function of the verifications so far, each the
      accepted and the proposed number of tokens. */
  datatype Execution = Execution(id: RequestId, p: Params, input: seq<Token>, tokens: seq<Token>, targetPosition: nat,
                                 draftPosition: nat, phase: Phase, counts: seq<(nat, nat)> -> nat, verified: seq<(nat, nat)>)

  /** What the caches hold for a request between two steps. */
  ghost predicate Ready(e: Execution, targetCache: seq<Token>, draftCache: seq<Token>) {
    && e.input != [] && e.p.maxNew > 0 && (forall h :: e.counts(h) > 0)
    && match e.phase
       case Prefilling(remaining) =>
         && e.tokens == e.input && e.targetPosition < |e.input| && e.draftPosition < |e.input|
         && remaining == |e.input| - 1 - Min(e.targetPosition, e.draftPosition) > 0
         && targetCache == e.input[..e.targetPosition] && draftCache == e.input[..e.draftPosition]
       case Decoding(generated) =>
         && generated < e.p.maxNew && |e.tokens| == |e.input| + generated && e.input <= e.tokens
         && targetCache == draftCache == e.tokens[..|e.tokens| - 1]
       case Finished(_) => true
  }

  // ---- One request alone ------------------------------------------------------------------------

  datatype Stepped = Stepped(e: Execution, targetCache: seq<Token>, draftCache: seq<Token>)

  function ChunkEnd(e: Execution, budget: nat): nat
    requires e.input != []
  {
    Min(Min(e.targetPosition, e.draftPosition) + budget, |e.input| - 1)
  }

  function ProposalLimit(e: Execution): nat
    requires e.phase.Decoding? && e.phase.generated <= e.p.maxNew
  {
    Min(e.counts(e.verified), e.p.maxNew - e.phase.generated)
  }

  function DecodePhaseAfter(p: Params, generated: nat, continues: bool): Phase {
    if !continues then Finished(EndOfSequence) else if generated < p.maxNew then Decoding(generated) else Finished(MaxNewTokensReached)
  }

  /** A decoding request after its proposal was verified. */
  function Completed(e: Execution, proposal: seq<Token>, logits: seq<Logits>): Execution
    requires e.phase.Decoding? && |logits| == |proposal|
  {
    var v := VerifyFrom(e.p, e.tokens, proposal, logits, 0);
    var c := CommitFrom(e.p, e.tokens, proposal[..v.accepted], v.replacement, 0);
    e.(tokens := c.tokens, verified := e.verified + [(v.accepted, |proposal|)],
       phase := DecodePhaseAfter(e.p, e.phase.generated + c.count, c.continues))
  }

  function Advanced(e: Execution, end: nat): Execution
    requires e.input != []
  {
    var (t, d) := (Max(e.targetPosition, end), Max(e.draftPosition, end));
    e.(targetPosition := t, draftPosition := d, phase := PrefillPhase(Max(|e.input| - 1 - Min(t, d), 0)))
  }

  ghost function StepAlone(e: Execution, budget: nat, target: Model, draft: Model, targetCache: seq<Token>, draftCache: seq<Token>): Stepped
    requires Ready(e, targetCache, draftCache)
  {
    match e.phase
    case Prefilling(_) =>
      var end := ChunkEnd(e, budget);
      Stepped(Advanced(e, end), e.input[..Max(e.targetPosition, end)], e.input[..Max(e.draftPosition, end)])
    case Decoding(_) =>
      var proposal := ProposeFrom(e.p, draft, e.tokens, [], ProposalLimit(e));
      var logits := TargetLogits(target, e.tokens, proposal);
      var v := VerifyFrom(e.p, e.tokens, proposal, logits, 0);
      var kept := (e.tokens + proposal)[..RetainedCount(e.tokens, v)];
      Stepped(Completed(e, proposal, logits), kept, kept)
    case Finished(_) => Stepped(e, targetCache, draftCache)
  }

  /** What a request will have committed in the end. */
  function Expected(e: Execution, target: Model): Outcome {
    match e.phase
    case Prefilling(_) => Reference(e.p, target, e.tokens, e.p.maxNew)
    case Decoding(g) => Reference(e.p, target, e.tokens, if g <= e.p.maxNew then e.p.maxNew - g else 0)
    case Finished(reason) => Outcome(e.tokens, reason)
  }

  function StepsLeft(e: Execution): nat {
    match e.phase
    case Prefilling(remaining) => e.p.maxNew + 1 + remaining
    case Decoding(g) => if g <= e.p.maxNew then e.p.maxNew - g else 0
    case Finished(_) => 0
  }

  /** A step keeps what the caches hold in order, keeps the outcome that target-only decoding gives, and
      gets closer to it. */
  lemma StepAloneRefines(e: Execution, budget: nat, target: Model, draft: Model, targetCache: seq<Token>, draftCache: seq<Token>)
    requires Ready(e, targetCache, draftCache) && budget > 0 && !e.phase.Finished?
    ensures var s := StepAlone(e, budget, target, draft, targetCache, draftCache);
            && Ready(s.e, s.targetCache, s.draftCache)
            && Expected(s.e, target) == Expected(e, target) && StepsLeft(s.e) < StepsLeft(e)
            && e.tokens <= s.e.tokens && s.e.id == e.id
  {
    hide Reference, ProposeFrom, VerifyFrom, CommitFrom;
    match e.phase
    case Prefilling(_) =>
    case Decoding(g) =>
      var proposal := ProposeFrom(e.p, draft, e.tokens, [], ProposalLimit(e));
      var logits := TargetLogits(target, e.tokens, proposal);
      ProposalNotEmpty(e.p, draft, e.tokens, ProposalLimit(e));
      var c := IterationOutcome(e.p, target, e.tokens, proposal, logits, e.p.maxNew - g);
    case Finished(_) =>
  }

  /** A prefill step brings whichever cache lags behind up to one chunk beyond the lesser of the two: at most
      the budget, and never the last input token. A cache that is already there stays, no cache grows by
      more than the budget, and what is left is what the scheduler is told. */
  lemma PrefillKeepsToBudget(e: Execution, budget: nat, target: Model, draft: Model, targetCache: seq<Token>, draftCache: seq<Token>)
    requires Ready(e, targetCache, draftCache) && e.phase.Prefilling?
    ensures var s := StepAlone(e, budget, target, draft, targetCache, draftCache);
            var end := Min(Min(|targetCache|, |draftCache|) + budget, |e.input| - 1);
            && Min(|s.targetCache|, |s.draftCache|) == end
            && (|s.targetCache| == if |targetCache| >= end then |targetCache| else end)
            && (|s.draftCache| == if |draftCache| >= end then |draftCache| else end)
            && |s.targetCache| - |targetCache| <= budget && |s.draftCache| - |draftCache| <= budget
            && s.e.phase == (if end == |e.input| - 1 then Decoding(0) else Prefilling(|e.input| - 1 - end))
            && s.e.tokens == e.tokens && s.e.verified == e.verified
  {
  }

  /** A decode step proposes what the draft model would generate by itself, up to the policy's count for the
      verifications so far and to the tokens that may still be generated. It accepts what the target
      agrees with, and reports both numbers to the policy. */
  lemma IterationReports(e: Execution, budget: nat, target: Model, draft: Model, targetCache: seq<Token>, draftCache: seq<Token>)
      returns (proposal: seq<Token>, accepted: nat)
    requires Ready(e, targetCache, draftCache) && e.phase.Decoding?
    ensures DraftsAlone(e.p, draft, e.tokens, Min(e.counts(e.verified), e.p.maxNew - e.phase.generated), proposal)
    ensures AgreesUpTo(e.p, target, e.tokens, proposal, accepted)
    ensures var s := StepAlone(e, budget, target, draft, targetCache, draftCache);
            s.e.verified == e.verified + [(accepted, |proposal|)]
  {
    hide ProposeFrom, VerifyFrom, CommitFrom, DraftsAlone, AgreesUpTo;
    proposal := ProposeFrom(e.p, draft, e.tokens, [], ProposalLimit(e));
    var logits := TargetLogits(target, e.tokens, proposal);
    ProposalIsDraftsOwn(e.p, draft, e.tokens, ProposalLimit(e));
    VerificationExact(e.p, target, e.tokens, proposal, logits);
    accepted := VerifyFrom(e.p, e.tokens, proposal, logits, 0).accepted;
  }

  /** The prefill tokens that a step feeds to one model for the batch. */
  function FedPrefill(requests: seq<Execution>, before: seq<seq<Token>>, after: seq<seq<Token>>): int
    requires |requests| == |before| == |after|
  {
    if requests == [] then 0
    else (if requests[0].phase.Prefilling? then |after[0]| - |before[0]| else 0) + FedPrefill(requests[1..], before[1..], after[1..])
  }

  function PrefillBudget(requests: seq<Execution>, budgets: seq<nat>): nat
    requires |requests| == |budgets|
  {
    if requests == [] then 0
    else (if requests[0].phase.Prefilling? then budgets[0] else 0) + PrefillBudget(requests[1..], budgets[1..])
  }

  lemma {:induction false} FedWithinBudgets(requests: seq<Execution>, before: seq<seq<Token>>, after: seq<seq<Token>>, budgets: seq<nat>)
    requires |requests| == |before| == |after| == |budgets|
    requires forall k :: 0 <= k < |requests| && requests[k].phase.Prefilling? ==> |after[k]| - |before[k]| <= budgets[k]
    ensures FedPrefill(requests, before, after) <= PrefillBudget(requests, budgets)
    decreases |requests|
  {
    if requests != [] {
      forall k | 0 <= k < |requests[1..]| && requests[1..][k].phase.Prefilling? ensures |after[1..][k]| - |before[1..][k]| <= budgets[1..][k] {
        assert requests[1..][k] == requests[k + 1];
      }
      FedWithinBudgets(requests[1..], before[1..], after[1..], budgets[1..]);
    }
  }

  lemma ProposalNotEmpty(p: Params, draft: Model, tokens: seq<Token>, most: nat)
    requires most > 0
    ensures ProposeFrom(p, draft, tokens, [], most) != []
  {
  }

  // ---- The shared models ------------------------------------------------------------------------

  /** The page reservation of each request, in tokens. */
  type Limits = map<RequestId, nat>

  /** The request's reservation holds its input and all new tokens but the last. */
  ghost predicate Reserved(e: Execution, limits: Limits) {
    e.input != [] && e.id in limits && limits[e.id] == |e.input| + e.p.maxNew - 1
  }

  ghost predicate AllReserved(requests: seq<Execution>, limits: Limits) {
    forall k :: 0 <= k < |requests| ==> Reserved(requests[k], limits)
  }

  /** After the pass the request has no more tokens cached than reserved. */
  ghost predicate WithinLimit(limits: Limits, input: ForwardInput) {
    input.id in limits && input.start + |input.tokens| <= limits[input.id]
  }

  ghost predicate OneInputEach(inputs: seq<ForwardInput>) {
    forall i, j :: 0 <= i < j < |inputs| ==> inputs[i].id != inputs[j].id
  }

  /** What a forward pass answers at every position of one input: the model's logits of the prefix. */
  ghost predicate Answers(model: Model, cache: seq<Token>, tokens: seq<Token>, logits: seq<Logits>) {
    |logits| == |tokens| && forall i :: 0 <= i < |tokens| ==> logits[i] == model(cache + tokens[..i + 1])
  }

  /** A model whose cache serves many requests: each request's logits depend on its own cached prefix. */
  class SharedModel {
    const model: Model
    ghost const limits: Limits
    var caches: Caches

    constructor (m: Model, restored: Caches, ghost reserved: Limits)
      ensures model == m && caches == restored && limits == reserved
    {
      model, caches, limits := m, restored, reserved;
    }

    /** Extends one request's cache. */
    method ForwardOne(id: RequestId, tokens: seq<Token>) returns (logits: seq<Logits>)
      requires id in caches
      modifies this
      ensures caches == old(caches)[id := old(caches)[id] + tokens] && Answers(model, old(caches)[id], tokens, logits)
    {
      var cache := caches[id];
      logits := [];
      for i := 0 to |tokens|
        invariant cache == old(caches)[id] + tokens[..i] && caches == old(caches)
        invariant |logits| == i && forall j :: 0 <= j < i ==> logits[j] == model(old(caches)[id] + tokens[..j + 1])
      {
        cache := cache + [tokens[i]];
        assert cache == old(caches)[id] + tokens[..i + 1];
        logits := logits + [model(cache)];
      }
      assert tokens[..|tokens|] == tokens;
      caches := caches[id := cache];
    }

    /** One pass over inputs of distinct requests, each starting where its request's cache ends and staying
        within its reservation. */
    method Forward(inputs: seq<ForwardInput>) returns (logits: seq<seq<Logits>>)
      requires OneInputEach(inputs)
      requires forall i :: 0 <= i < |inputs| ==>
                 inputs[i].id in caches && inputs[i].start == |caches[inputs[i].id]| && WithinLimit(limits, inputs[i])
      modifies this
      ensures caches.Keys == old(caches).Keys && |logits| == |inputs|
      ensures forall i :: 0 <= i < |inputs| ==>
                && caches[inputs[i].id] == old(caches)[inputs[i].id] + inputs[i].tokens
                && Answers(model, old(caches)[inputs[i].id], inputs[i].tokens, logits[i])
      ensures forall id :: id in caches && (forall i :: 0 <= i < |inputs| ==> inputs[i].id != id) ==> caches[id] == old(caches)[id]
    {
      hide Answers;
      logits := [];
      for n := 0 to |inputs|
        invariant caches.Keys == old(caches).Keys && |logits| == n
        invariant forall i :: 0 <= i < n ==>
                    && caches[inputs[i].id] == old(caches)[inputs[i].id] + inputs[i].tokens
                    && Answers(model, old(caches)[inputs[i].id], inputs[i].tokens, logits[i])
        invariant forall i :: n <= i < |inputs| ==> caches[inputs[i].id] == old(caches)[inputs[i].id]
        invariant forall id :: id in caches && (forall i :: 0 <= i < |inputs| ==> inputs[i].id != id) ==> caches[id] == old(caches)[id]
      {
        var answer := ForwardOne(inputs[n].id, inputs[n].tokens);
        logits := logits + [answer];
      }
    }

    method TruncateCache(id: RequestId, count: nat)
      requires id in caches && count <= |caches[id]|
      modifies this
      ensures caches == old(caches)[id := old(caches)[id][..count]]
    {
      caches := caches[id := caches[id][..count]];
    }
  }

  // ---- Passes over part of the batch ------------------------------------------------------------

  /** Optional inputs, one for each request of the batch. */
  ghost predicate InputsFit(caches: Caches, limits: Limits, ids: seq<RequestId>, inputs: seq<Option<ForwardInput>>) {
    && |inputs| == |ids| && Distinct(ids) && (forall k :: 0 <= k < |ids| ==> ids[k] in caches)
    && forall k :: 0 <= k < |ids| && inputs[k].Some? ==>
         inputs[k].value.id == ids[k] && inputs[k].value.start == |caches[ids[k]]| && WithinLimit(limits, inputs[k].value)
  }

  function Fed(input: Option<ForwardInput>): seq<Token> { if input.Some? then input.value.tokens else [] }

  /** The inputs that are there, and whose they are. */
  method CollectInputs(inputs: seq<Option<ForwardInput>>) returns (indices: seq<nat>, collected: seq<ForwardInput>)
    ensures |collected| == |indices|
    ensures forall i :: 0 <= i < |indices| ==> indices[i] < |inputs| && inputs[indices[i]] == Some(collected[i])
    ensures forall i, j :: 0 <= i < j < |indices| ==> indices[i] < indices[j]
    ensures forall k :: 0 <= k < |inputs| && inputs[k].Some? ==> k in indices
  {
    indices, collected := [], [];
    for k := 0 to |inputs|
      invariant |collected| == |indices|
      invariant forall i :: 0 <= i < |indices| ==> indices[i] < k && inputs[indices[i]] == Some(collected[i])
      invariant forall i, j :: 0 <= i < j < |indices| ==> indices[i] < indices[j]
      invariant forall j :: 0 <= j < k && inputs[j].Some? ==> j in indices
    {
      if inputs[k].Some? {
        indices, collected := indices + [k], collected + [inputs[k].value];
      }
    }
  }

  /** Puts each answer at its request's place. */
  method ScatterLogits(count: nat, indices: seq<nat>, answers: seq<seq<Logits>>) returns (logits: seq<Option<seq<Logits>>>)
    requires |answers| == |indices| && forall i :: 0 <= i < |indices| ==> indices[i] < count
    requires forall i, j :: 0 <= i < j < |indices| ==> indices[i] < indices[j]
    ensures |logits| == count && forall i :: 0 <= i < |indices| ==> logits[indices[i]] == Some(answers[i])
  {
    logits := seq(count, _ => None);
    for i := 0 to |indices|
      invariant |logits| == count && forall j :: 0 <= j < i ==> logits[indices[j]] == Some(answers[j])
    {
      logits := logits[indices[i] := Some(answers[i])];
    }
  }

  /** One pass for the requests that have an input. */
  method ForwardSome(shared: SharedModel, ids: seq<RequestId>, inputs: seq<Option<ForwardInput>>) returns (logits: seq<Option<seq<Logits>>>)
    requires InputsFit(shared.caches, shared.limits, ids, inputs)
    modifies shared
    ensures shared.caches.Keys == old(shared.caches).Keys && |logits| == |ids|
    ensures forall k :: 0 <= k < |ids| ==>
              ForwardedAt(shared.model, old(shared.caches), shared.caches, ids[k], inputs[k], logits[k])
    ensures forall id :: id in shared.caches && id !in ids ==> shared.caches[id] == old(shared.caches)[id]
  {
    hide Answers, WithinLimit;
    var indices, collected := CollectInputs(inputs);
    forall i | 0 <= i < |collected|
      ensures collected[i].id == ids[indices[i]] && collected[i].start == |shared.caches[collected[i].id]|
      ensures WithinLimit(shared.limits, collected[i])
    {
      assert inputs[indices[i]].Some?;
    }
    var answers := shared.Forward(collected);
    logits := ScatterLogits(|ids|, indices, answers);
    forall k | 0 <= k < |ids|
      ensures ForwardedAt(shared.model, old(shared.caches), shared.caches, ids[k], inputs[k], logits[k])
    {
      if inputs[k].Some? {
        var i :| 0 <= i < |indices| && indices[i] == k;
      } else {
        forall i | 0 <= i < |collected| ensures collected[i].id != ids[k] { assert inputs[indices[i]].Some?; }
        assert old(shared.caches)[ids[k]] + [] == old(shared.caches)[ids[k]];
      }
    }
  }

  /** One request's share of a pass. */
  ghost predicate ForwardedAt(model: Model, before: Caches, after: Caches, id: RequestId, input: Option<ForwardInput>,
                              logits: Option<seq<Logits>>)
  {
    && id in before && id in after && after[id] == before[id] + Fed(input)
    && (input.Some? ==> logits.Some? && Answers(model, before[id], input.value.tokens, logits.value))
  }

  // ---- Proposals --------------------------------------------------------------------------------

  function IdsOf(requests: seq<Execution>): (ids: seq<RequestId>)
    ensures |ids| == |requests| && forall k :: 0 <= k < |requests| ==> ids[k] == requests[k].id
  {
    seq(|requests|, k requires 0 <= k < |requests| => requests[k].id)
  }

  /** The requests are distinct and have cache states. */
  ghost predicate Known(requests: seq<Execution>, caches: Caches) {
    Distinct(IdsOf(requests)) && forall k :: 0 <= k < |requests| ==> requests[k].id in caches
  }

  /** A request that may propose. */
  ghost predicate MayPropose(e: Execution) {
    e.tokens != [] && (e.phase.Decoding? ==> e.phase.generated <= e.p.maxNew && |e.tokens| == |e.input| + e.phase.generated)
  }

  /** Only decoding requests propose. */
  function ContextOf(e: Execution): Context
    requires MayPropose(e)
  {
    Context(e.p, e.tokens, if e.phase.Decoding? then ProposalLimit(e) else 0)
  }

  function ContextsOf(requests: seq<Execution>): (contexts: seq<Context>)
    requires forall k :: 0 <= k < |requests| ==> MayPropose(requests[k])
    ensures |contexts| == |requests| && forall k :: 0 <= k < |requests| ==> contexts[k] == ContextOf(requests[k])
  {
    seq(|requests|, k requires 0 <= k < |requests| => ContextOf(requests[k]))
  }

  /** A partial proposal, and the draft cache it leaves. */
  ghost predicate GrowingAt(draft: Model, e: Execution, proposal: seq<Token>, before: seq<Token>, cache: seq<Token>) {
    MayPropose(e) &&
    if e.phase.Decoding? then GrownAlone(draft, ContextOf(e), proposal, cache) else proposal == [] && cache == before
  }

  ghost predicate AllGrowing(shared: SharedModel, requests: seq<Execution>, proposals: seq<seq<Token>>, before: Caches)
    reads shared
  {
    && Known(requests, before) && shared.caches.Keys == before.Keys && |proposals| == |requests|
    && (forall k :: 0 <= k < |requests| ==>
          GrowingAt(shared.model, requests[k], proposals[k], before[requests[k].id], shared.caches[requests[k].id]))
    && (forall id :: id in before && id !in IdsOf(requests) ==> shared.caches[id] == before[id])
  }

  predicate IsUnfinished(e: Execution, proposal: seq<Token>)
    requires MayPropose(e)
  {
    !ProposalComplete(e.p, proposal, ContextOf(e).most)
  }

  /** The next draft input of a request that still extends its proposal: its last token so far. */
  function ProposalInput(e: Execution, proposal: seq<Token>): Option<ForwardInput>
    requires MayPropose(e)
  {
    if !IsUnfinished(e, proposal) then None
    else Some(ForwardInput(e.id, [if proposal == [] then Last(e.tokens) else Last(proposal)], |e.tokens| - 1 + |proposal|))
  }

  lemma ProposalInputFits(model: Model, e: Execution, proposal: seq<Token>, before: seq<Token>, cache: seq<Token>, limits: Limits)
    requires GrowingAt(model, e, proposal, before, cache) && Reserved(e, limits)
    ensures var input := ProposalInput(e, proposal);
            input.Some? ==> input.value.id == e.id && input.value.start == |cache| && WithinLimit(limits, input.value)
  {
    if IsUnfinished(e, proposal) {
      GrowAlone(model, ContextOf(e), proposal, cache, if proposal == [] then Last(e.tokens) else Last(proposal));
    }
  }

  /** A proposal with the token sampled from its request's logits. */
  function Grown(e: Execution, proposal: seq<Token>, logits: Option<seq<Logits>>): seq<Token>
    requires MayPropose(e) && (IsUnfinished(e, proposal) ==> logits.Some? && |logits.value| == 1)
  {
    if IsUnfinished(e, proposal) then proposal + [SampleGreedy(e.p, logits.value[0], e.tokens, proposal)] else proposal
  }

  lemma GrowsAt(model: Model, e: Execution, proposal: seq<Token>, caches: Caches, caches': Caches, before: seq<Token>,
                logits: Option<seq<Logits>>)
    requires e.id in caches && GrowingAt(model, e, proposal, before, caches[e.id])
    requires ForwardedAt(model, caches, caches', e.id, ProposalInput(e, proposal), logits)
    ensures IsUnfinished(e, proposal) ==> logits.Some? && |logits.value| == 1
    ensures GrowingAt(model, e, Grown(e, proposal, logits), before, caches'[e.id])
  {
    hide GrownAlone;
    var input := ProposalInput(e, proposal);
    if input.Some? {
      var fed := input.value.tokens[0];
      assert [fed][..1] == [fed];
      GrowAlone(model, ContextOf(e), proposal, caches[e.id], fed);
    } else {
      assert caches[e.id] + [] == caches[e.id];
    }
  }

  method SampleAndAppend(requests: seq<Execution>, proposals: seq<seq<Token>>, logits: seq<Option<seq<Logits>>>)
      returns (grown: seq<seq<Token>>)
    requires |proposals| == |logits| == |requests| && forall k :: 0 <= k < |requests| ==> MayPropose(requests[k])
    requires forall k :: 0 <= k < |requests| ==> (IsUnfinished(requests[k], proposals[k]) ==> logits[k].Some? && |logits[k].value| == 1)
    ensures |grown| == |requests| && forall k :: 0 <= k < |requests| ==> grown[k] == Grown(requests[k], proposals[k], logits[k])
  {
    grown := proposals;
    for k := 0 to |requests|
      invariant |grown| == |requests| && forall j :: k <= j < |requests| ==> grown[j] == proposals[j]
      invariant forall j :: 0 <= j < k ==> grown[j] == Grown(requests[j], proposals[j], logits[j])
    {
      if IsUnfinished(requests[k], proposals[k]) {
        grown := grown[k := proposals[k] + [SampleGreedy(requests[k].p, logits[k].value[0], requests[k].tokens, proposals[k])]];
      }
    }
  }

  /** One batched draft pass: every unfinished proposal grows by one token, the others stay. */
  method ExtendProposals(draft: SharedModel, requests: seq<Execution>, proposals: seq<seq<Token>>, ghost before: Caches)
      returns (grown: seq<seq<Token>>)
    requires AllGrowing(draft, requests, proposals, before) && AllReserved(requests, draft.limits)
    modifies draft
    ensures AllGrowing(draft, requests, grown, before)
    ensures forall k :: 0 <= k < |requests| ==>
              MayPropose(requests[k]) && |grown[k]| == |proposals[k]| + if IsUnfinished(requests[k], proposals[k]) then 1 else 0
  {
    hide GrowingAt, ForwardedAt, IsUnfinished, WithinLimit, Reserved;
    MayAllPropose(draft.model, requests, proposals, before, draft.caches);
    var inputs := seq(|requests|, k requires 0 <= k < |requests| => ProposalInput(requests[k], proposals[k]));
    hide ProposalInput;
    forall k | 0 <= k < |requests| && inputs[k].Some?
      ensures inputs[k].value.id == requests[k].id && inputs[k].value.start == |draft.caches[requests[k].id]|
      ensures WithinLimit(draft.limits, inputs[k].value)
    {
      ProposalInputFits(draft.model, requests[k], proposals[k], before[requests[k].id], draft.caches[requests[k].id], draft.limits);
    }
    ghost var caches := draft.caches;
    var logits := ForwardSome(draft, IdsOf(requests), inputs);
    forall k | 0 <= k < |requests|
      ensures IsUnfinished(requests[k], proposals[k]) ==> logits[k].Some? && |logits[k].value| == 1
      ensures GrowingAt(draft.model, requests[k], Grown(requests[k], proposals[k], logits[k]), before[requests[k].id],
                        draft.caches[requests[k].id])
    {
      GrowsAt(draft.model, requests[k], proposals[k], caches, draft.caches, before[requests[k].id], logits[k]);
    }
    grown := SampleAndAppend(requests, proposals, logits);
  }

  lemma MayAllPropose(model: Model, requests: seq<Execution>, proposals: seq<seq<Token>>, before: Caches, caches: Caches)
    requires |proposals| == |requests| && forall k :: 0 <= k < |requests| ==> requests[k].id in before && requests[k].id in caches
    requires forall k :: 0 <= k < |requests| ==>
               GrowingAt(model, requests[k], proposals[k], before[requests[k].id], caches[requests[k].id])
    ensures forall k :: 0 <= k < |requests| ==> MayPropose(requests[k])
  {
  }

  function Unfinished(requests: seq<Execution>, proposals: seq<seq<Token>>): set<nat>
    requires |proposals| == |requests| && forall k :: 0 <= k < |requests| ==> MayPropose(requests[k])
  {
    set k: nat | k < |requests| && IsUnfinished(requests[k], proposals[k])
  }

  /** The finished proposal of a request, and the draft cache it leaves. */
  ghost predicate ProposedAt(draft: Model, e: Execution, proposal: seq<Token>, before: seq<Token>, cache: seq<Token>) {
    MayPropose(e) &&
    if e.phase.Decoding? then
      && proposal == ProposeFrom(e.p, draft, e.tokens, [], ProposalLimit(e)) && cache == ProposalCache(e.tokens, proposal)
    else proposal == [] && cache == before
  }

  /** The proposal loop: requests drop out as their proposals are complete. Each decoding request ends with
      the proposal, and the draft cache, that it would have alone. */
  method GenerateDraftProposals(draft: SharedModel, requests: seq<Execution>) returns (proposals: seq<seq<Token>>)
    requires Known(requests, draft.caches) && AllReserved(requests, draft.limits)
    requires forall k :: 0 <= k < |requests| ==>
               MayPropose(requests[k]) &&
               (requests[k].phase.Decoding? ==> draft.caches[requests[k].id] == requests[k].tokens[..|requests[k].tokens| - 1])
    modifies draft
    ensures draft.caches.Keys == old(draft.caches).Keys && |proposals| == |requests|
    ensures forall k :: 0 <= k < |requests| ==>
              ProposedAt(draft.model, requests[k], proposals[k], old(draft.caches)[requests[k].id], draft.caches[requests[k].id])
    ensures forall id :: id in old(draft.caches) && id !in IdsOf(requests) ==> draft.caches[id] == old(draft.caches)[id]
  {
    ghost var before := draft.caches;
    proposals := seq(|requests|, _ => []);
    forall k | 0 <= k < |requests|
      ensures GrowingAt(draft.model, requests[k], proposals[k], before[requests[k].id], draft.caches[requests[k].id])
    {
      assert requests[k].tokens + [] == requests[k].tokens;
    }
    hide GrowingAt, AllReserved;
    while Unfinished(requests, proposals) != {}
      invariant AllGrowing(draft, requests, proposals, before)
      decreases RoundsLeft(ContextsOf(requests), proposals)
    {
      var grown := ExtendProposals(draft, requests, proposals, before);
      RoundShrinks(requests, proposals, grown);
      proposals := grown;
    }
    forall k | 0 <= k < |requests|
      ensures ProposedAt(draft.model, requests[k], proposals[k], before[requests[k].id], draft.caches[requests[k].id])
    {
      assert k !in Unfinished(requests, proposals);
      GrownIsProposed(draft.model, requests[k], proposals[k], before[requests[k].id], draft.caches[requests[k].id]);
    }
  }

  lemma GrownIsProposed(draft: Model, e: Execution, proposal: seq<Token>, before: seq<Token>, cache: seq<Token>)
    requires GrowingAt(draft, e, proposal, before, cache) && !IsUnfinished(e, proposal)
    ensures ProposedAt(draft, e, proposal, before, cache)
  {
  }

  lemma RoundShrinks(requests: seq<Execution>, before: seq<seq<Token>>, after: seq<seq<Token>>)
    requires |before| == |after| == |requests| && (forall k :: 0 <= k < |requests| ==> MayPropose(requests[k]))
    requires Unfinished(requests, before) != {}
    requires forall k :: 0 <= k < |requests| ==> |after[k]| == |before[k]| + if IsUnfinished(requests[k], before[k]) then 1 else 0
    ensures RoundsLeft(ContextsOf(requests), after) < RoundsLeft(ContextsOf(requests), before)
  {
    RoundsMonotone(ContextsOf(requests), before, after);
    var k :| k in Unfinished(requests, before);
    assert |before[k]| < |after[k]|;
  }

  // ---- The batched step -------------------------------------------------------------------------

  ghost predicate BatchReady(requests: seq<Execution>, targetCaches: Caches, draftCaches: Caches) {
    && Known(requests, targetCaches) && Known(requests, draftCaches)
    && forall k :: 0 <= k < |requests| ==>
         Ready(requests[k], targetCaches[requests[k].id], draftCaches[requests[k].id]) && !requests[k].phase.Finished?
  }

  /** The draft's share of a prefill chunk. */
  function DraftInput(e: Execution, budget: nat): Option<ForwardInput>
    requires e.input != []
  {
    var end := ChunkEnd(e, budget);
    if e.phase.Prefilling? && e.draftPosition < end then Some(ForwardInput(e.id, e.input[e.draftPosition..end], e.draftPosition)) else None
  }

  /** The target's share of a prefill chunk, or the verification of a proposal: the last committed token
      and every proposed token but the last. */
  function TargetInput(e: Execution, budget: nat, proposal: seq<Token>): Option<ForwardInput>
    requires e.input != [] && (e.phase.Decoding? ==> e.tokens != [] && proposal != [])
  {
    var end := ChunkEnd(e, budget);
    match e.phase
    case Prefilling(_) =>
      if e.targetPosition < end then Some(ForwardInput(e.id, e.input[e.targetPosition..end], e.targetPosition)) else None
    case Decoding(_) => Some(ForwardInput(e.id, [Last(e.tokens)] + proposal[..|proposal| - 1], |e.tokens| - 1))
    case Finished(_) => None
  }

  /** One request after both models' passes. */
  ghost predicate PassedAt(target: Model, draft: Model, e: Execution, budget: nat, proposal: seq<Token>, logits: Option<seq<Logits>>,
                           targetCache: seq<Token>, draftCache: seq<Token>)
  {
    e.input != [] && e.tokens != [] &&
    match e.phase
    case Prefilling(_) =>
      && e.targetPosition < |e.input| && e.draftPosition < |e.input|
      && targetCache == e.input[..Max(e.targetPosition, ChunkEnd(e, budget))]
      && draftCache == e.input[..Max(e.draftPosition, ChunkEnd(e, budget))]
    case Decoding(g) =>
      && g <= e.p.maxNew && proposal == ProposeFrom(e.p, draft, e.tokens, [], ProposalLimit(e)) && proposal != []
      && targetCache == draftCache == ProposalCache(e.tokens, proposal)
      && logits.Some? && VerificationLogits(target, e.tokens, proposal, logits.value)
    case Finished(_) => false
  }

  lemma DraftChunk(draft: Model, e: Execution, budget: nat, caches: Caches, caches': Caches, targetCache: seq<Token>,
                   logits: Option<seq<Logits>>)
    requires e.id in caches && Ready(e, targetCache, caches[e.id]) && !e.phase.Finished?
    requires ForwardedAt(draft, caches, caches', e.id, DraftInput(e, budget), logits)
    ensures MayPropose(e)
    ensures e.phase.Decoding? ==> caches'[e.id] == e.tokens[..|e.tokens| - 1]
    ensures e.phase.Prefilling? ==> caches'[e.id] == e.input[..Max(e.draftPosition, ChunkEnd(e, budget))]
  {
    hide Answers;
    var end := ChunkEnd(e, budget);
    if DraftInput(e, budget).Some? {
      assert e.input[..e.draftPosition] + e.input[e.draftPosition..end] == e.input[..end];
    } else {
      assert caches[e.id] + [] == caches[e.id];
    }
  }

  lemma TargetPass(target: Model, draft: Model, e: Execution, budget: nat, proposal: seq<Token>, caches: Caches, caches': Caches,
                   draftCache: seq<Token>, logits: Option<seq<Logits>>)
    requires e.id in caches && e.input != [] && e.tokens != [] && !e.phase.Finished? && MayPropose(e)
    requires e.phase.Prefilling? ==>
               && e.targetPosition < |e.input| && e.draftPosition < |e.input|
               && caches[e.id] == e.input[..e.targetPosition] && draftCache == e.input[..Max(e.draftPosition, ChunkEnd(e, budget))]
    requires e.phase.Decoding? ==>
               && caches[e.id] == e.tokens[..|e.tokens| - 1] && proposal != []
               && proposal == ProposeFrom(e.p, draft, e.tokens, [], ProposalLimit(e)) && draftCache == ProposalCache(e.tokens, proposal)
    requires ForwardedAt(target, caches, caches', e.id, TargetInput(e, budget, proposal), logits)
    ensures PassedAt(target, draft, e, budget, proposal, logits, caches'[e.id], draftCache)
  {
    hide ProposeFrom;
    var end := ChunkEnd(e, budget);
    if e.phase.Decoding? {
      var verified := [Last(e.tokens)] + proposal[..|proposal| - 1];
      VerificationInputs(target, e.tokens, proposal, verified);
      LogitsAnswerProposal(target, e.tokens, proposal, verified, logits.value);
    } else if TargetInput(e, budget, proposal).Some? {
      assert e.input[..e.targetPosition] + e.input[e.targetPosition..end] == e.input[..end];
    } else {
      assert caches[e.id] + [] == caches[e.id];
    }
  }

  /** Completes one request: it moves its positions, or verifies, rolls both caches back and commits. */
  method CompleteOne(target: SharedModel, draft: SharedModel, e: Execution, budget: nat, proposal: seq<Token>, logits: Option<seq<Logits>>,
                     ghost targetCache: seq<Token>, ghost draftCache: seq<Token>) returns (after: Execution)
    requires target != draft && e.id in target.caches && e.id in draft.caches && Ready(e, targetCache, draftCache)
    requires PassedAt(target.model, draft.model, e, budget, proposal, logits, target.caches[e.id], draft.caches[e.id])
    modifies target, draft
    ensures target.caches.Keys == old(target.caches).Keys && draft.caches.Keys == old(draft.caches).Keys
    ensures Stepped(after, target.caches[e.id], draft.caches[e.id]) ==
            StepAlone(e, budget, target.model, draft.model, targetCache, draftCache)
    ensures forall id :: id in target.caches && id != e.id ==> target.caches[id] == old(target.caches)[id]
    ensures forall id :: id in draft.caches && id != e.id ==> draft.caches[id] == old(draft.caches)[id]
  {
    hide ProposeFrom, VerifyFrom, CommitFrom;
    if e.phase.Prefilling? { return Advanced(e, ChunkEnd(e, budget)); }
    assert logits.value == TargetLogits(target.model, e.tokens, proposal);
    var v := VerifyFrom(e.p, e.tokens, proposal, logits.value, 0);
    var retained := |e.tokens| - 1 + v.accepted + if v.replacement.Some? then 1 else 0;
    assert ProposalCache(e.tokens, proposal)[..retained] == (e.tokens + proposal)[..retained];
    target.TruncateCache(e.id, retained);
    draft.TruncateCache(e.id, retained);
    after := Completed(e, proposal, logits.value);
  }

  /** Completes the requests one after the other. */
  method CompleteSteps(target: SharedModel, draft: SharedModel, requests: seq<Execution>, budgets: seq<nat>, proposals: seq<seq<Token>>,
                       logits: seq<Option<seq<Logits>>>, ghost targetBefore: Caches, ghost draftBefore: Caches)
      returns (after: seq<Execution>)
    requires target != draft && BatchReady(requests, targetBefore, draftBefore)
    requires target.caches.Keys == targetBefore.Keys && draft.caches.Keys == draftBefore.Keys
    requires |budgets| == |proposals| == |logits| == |requests|
    requires forall k :: 0 <= k < |requests| ==>
               PassedAt(target.model, draft.model, requests[k], budgets[k], proposals[k], logits[k],
                        target.caches[requests[k].id], draft.caches[requests[k].id])
    modifies target, draft
    ensures target.caches.Keys == targetBefore.Keys && draft.caches.Keys == draftBefore.Keys && |after| == |requests|
    ensures forall k :: 0 <= k < |requests| ==>
              Stepped(after[k], target.caches[requests[k].id], draft.caches[requests[k].id]) ==
              StepAlone(requests[k], budgets[k], target.model, draft.model, targetBefore[requests[k].id], draftBefore[requests[k].id])
    ensures forall id :: id in target.caches && id !in IdsOf(requests) ==> target.caches[id] == old(target.caches)[id]
    ensures forall id :: id in draft.caches && id !in IdsOf(requests) ==> draft.caches[id] == old(draft.caches)[id]
  {
    hide Ready, PassedAt, StepAlone;
    after := [];
    for k := 0 to |requests|
      invariant |after| == k && target.caches.Keys == targetBefore.Keys && draft.caches.Keys == draftBefore.Keys
      invariant forall j :: 0 <= j < k ==>
                  Stepped(after[j], target.caches[requests[j].id], draft.caches[requests[j].id]) ==
                  StepAlone(requests[j], budgets[j], target.model, draft.model, targetBefore[requests[j].id], draftBefore[requests[j].id])
      invariant forall j :: k <= j < |requests| ==>
                  PassedAt(target.model, draft.model, requests[j], budgets[j], proposals[j], logits[j],
                           target.caches[requests[j].id], draft.caches[requests[j].id])
      invariant forall id :: id in target.caches && id !in IdsOf(requests) ==> target.caches[id] == old(target.caches)[id]
      invariant forall id :: id in draft.caches && id !in IdsOf(requests) ==> draft.caches[id] == old(draft.caches)[id]
    {
      var e := requests[k];
      assert IdsOf(requests)[k] == e.id;
      OthersApart(requests, k);
      var done := CompleteOne(target, draft, e, budgets[k], proposals[k], logits[k], targetBefore[e.id], draftBefore[e.id]);
      after := after + [done];
    }
  }

  /** The batched step equals stepping every request alone on its own caches, and touches no other
      request's cache. */
  method RunSpeculativeDecodingSteps(target: SharedModel, draft: SharedModel, requests: seq<Execution>, budgets: seq<nat>)
      returns (after: seq<Execution>)
    requires target != draft && BatchReady(requests, target.caches, draft.caches) && |budgets| == |requests|
    requires AllReserved(requests, target.limits) && AllReserved(requests, draft.limits)
    modifies target, draft
    ensures target.caches.Keys == old(target.caches).Keys && draft.caches.Keys == old(draft.caches).Keys && |after| == |requests|
    ensures forall k :: 0 <= k < |requests| ==>
              Stepped(after[k], target.caches[requests[k].id], draft.caches[requests[k].id]) ==
              StepAlone(requests[k], budgets[k], target.model, draft.model,
                        old(target.caches)[requests[k].id], old(draft.caches)[requests[k].id])
    ensures forall id :: id in target.caches && id !in IdsOf(requests) ==> target.caches[id] == old(target.caches)[id]
    ensures forall id :: id in draft.caches && id !in IdsOf(requests) ==> draft.caches[id] == old(draft.caches)[id]
    ensures FedPrefill(requests, CachesOf(old(target.caches), requests), CachesOf(target.caches, requests)) <= PrefillBudget(requests, budgets)
    ensures FedPrefill(requests, CachesOf(old(draft.caches), requests), CachesOf(draft.caches, requests)) <= PrefillBudget(requests, budgets)
  {
    hide Ready, PassedAt, StepAlone, DraftedAt, AllReserved, FedPrefill, PrefillBudget;
    ghost var targetBefore, draftBefore := target.caches, draft.caches;
    var proposals := RunDraftPasses(target, draft, requests, budgets);
    var logits := RunTargetPass(target, draft, requests, budgets, proposals, targetBefore, draftBefore);
    after := CompleteSteps(target, draft, requests, budgets, proposals, logits, targetBefore, draftBefore);
    BatchFedWithinBudgets(target.model, draft.model, requests, budgets, targetBefore, draftBefore, target.caches, draft.caches);
  }

  /** Each request's cache, in the order of the batch. */
  ghost function CachesOf(caches: Caches, requests: seq<Execution>): (r: seq<seq<Token>>)
    ensures |r| == |requests| && forall k :: 0 <= k < |r| && requests[k].id in caches ==> r[k] == caches[requests[k].id]
  {
    seq(|requests|, k requires 0 <= k < |requests| => if requests[k].id in caches then caches[requests[k].id] else [])
  }

  lemma BatchFedWithinBudgets(target: Model, draft: Model, requests: seq<Execution>, budgets: seq<nat>,
                              targetBefore: Caches, draftBefore: Caches, targetAfter: Caches, draftAfter: Caches)
    requires BatchReady(requests, targetBefore, draftBefore) && |budgets| == |requests|
    requires targetAfter.Keys == targetBefore.Keys && draftAfter.Keys == draftBefore.Keys
    requires forall k :: 0 <= k < |requests| ==>
               var s := StepAlone(requests[k], budgets[k], target, draft, targetBefore[requests[k].id], draftBefore[requests[k].id]);
               targetAfter[requests[k].id] == s.targetCache && draftAfter[requests[k].id] == s.draftCache
    ensures FedPrefill(requests, CachesOf(targetBefore, requests), CachesOf(targetAfter, requests)) <= PrefillBudget(requests, budgets)
    ensures FedPrefill(requests, CachesOf(draftBefore, requests), CachesOf(draftAfter, requests)) <= PrefillBudget(requests, budgets)
  {
    hide Ready, StepAlone, FedPrefill, PrefillBudget;
    forall k | 0 <= k < |requests| && requests[k].phase.Prefilling?
      ensures |CachesOf(targetAfter, requests)[k]| - |CachesOf(targetBefore, requests)[k]| <= budgets[k]
      ensures |CachesOf(draftAfter, requests)[k]| - |CachesOf(draftBefore, requests)[k]| <= budgets[k]
    {
      var id := requests[k].id;
      PrefillKeepsToBudget(requests[k], budgets[k], target, draft, targetBefore[id], draftBefore[id]);
    }
    FedWithinBudgets(requests, CachesOf(targetBefore, requests), CachesOf(targetAfter, requests), budgets);
    FedWithinBudgets(requests, CachesOf(draftBefore, requests), CachesOf(draftAfter, requests), budgets);
  }

  lemma OthersApart(requests: seq<Execution>, k: nat)
    requires Distinct(IdsOf(requests)) && k < |requests|
    ensures forall j :: 0 <= j < |requests| && j != k ==> requests[j].id != requests[k].id
  {
    forall j | 0 <= j < |requests| && j != k ensures requests[j].id != requests[k].id {
      assert IdsOf(requests)[j] != IdsOf(requests)[k];
    }
  }

  /** One request after the draft's passes. */
  ghost predicate DraftedAt(draft: Model, e: Execution, budget: nat, proposal: seq<Token>, cache: seq<Token>) {
    e.input != [] && MayPropose(e) &&
    match e.phase
    case Prefilling(_) => e.draftPosition < |e.input| && cache == e.input[..Max(e.draftPosition, ChunkEnd(e, budget))]
    case Decoding(_) =>
      && proposal == ProposeFrom(e.p, draft, e.tokens, [], ProposalLimit(e)) && proposal != []
      && cache == ProposalCache(e.tokens, proposal)
    case Finished(_) => false
  }

  /** Draft prefill, then the proposals. */
  method RunDraftPasses(target: SharedModel, draft: SharedModel, requests: seq<Execution>, budgets: seq<nat>)
      returns (proposals: seq<seq<Token>>)
    requires target != draft && BatchReady(requests, target.caches, draft.caches) && |budgets| == |requests|
    requires AllReserved(requests, draft.limits)
    modifies draft
    ensures draft.caches.Keys == old(draft.caches).Keys && |proposals| == |requests|
    ensures forall k :: 0 <= k < |requests| ==>
              DraftedAt(draft.model, requests[k], budgets[k], proposals[k], draft.caches[requests[k].id])
    ensures forall id :: id in draft.caches && id !in IdsOf(requests) ==> draft.caches[id] == old(draft.caches)[id]
  {
    hide ForwardedAt, ProposedAt, DraftedAt, WithinLimit, Reserved;
    ghost var before := draft.caches;
    var inputs := seq(|requests|, k requires 0 <= k < |requests| => DraftInput(requests[k], budgets[k]));
    hide Ready, DraftInput;
    forall k | 0 <= k < |requests| && inputs[k].Some?
      ensures inputs[k].value.id == requests[k].id && inputs[k].value.start == |before[requests[k].id]|
      ensures WithinLimit(draft.limits, inputs[k].value)
    {
      DraftInputFits(requests[k], budgets[k], target.caches[requests[k].id], before[requests[k].id], draft.limits);
    }
    var logits := ForwardSome(draft, IdsOf(requests), inputs);
    forall k | 0 <= k < |requests|
      ensures MayPropose(requests[k])
      ensures requests[k].phase.Decoding? ==> draft.caches[requests[k].id] == requests[k].tokens[..|requests[k].tokens| - 1]
    {
      DraftChunk(draft.model, requests[k], budgets[k], before, draft.caches, target.caches[requests[k].id], logits[k]);
    }
    ghost var between := draft.caches;
    proposals := GenerateDraftProposals(draft, requests);
    forall k | 0 <= k < |requests|
      ensures DraftedAt(draft.model, requests[k], budgets[k], proposals[k], draft.caches[requests[k].id])
    {
      ReadyPositions(requests[k], target.caches[requests[k].id], before[requests[k].id]);
      DraftChunk(draft.model, requests[k], budgets[k], before, between, target.caches[requests[k].id], logits[k]);
      ProposedIsDrafted(draft.model, requests[k], budgets[k], proposals[k], between[requests[k].id], draft.caches[requests[k].id]);
    }
  }

  lemma DraftInputFits(e: Execution, budget: nat, targetCache: seq<Token>, draftCache: seq<Token>, limits: Limits)
    requires Ready(e, targetCache, draftCache) && DraftInput(e, budget).Some? && Reserved(e, limits)
    ensures DraftInput(e, budget).value.id == e.id && DraftInput(e, budget).value.start == |draftCache|
    ensures WithinLimit(limits, DraftInput(e, budget).value)
  {
  }

  lemma ReadyPositions(e: Execution, targetCache: seq<Token>, draftCache: seq<Token>)
    requires Ready(e, targetCache, draftCache) && !e.phase.Finished?
    ensures e.input != [] && MayPropose(e) && (e.phase.Prefilling? ==> e.draftPosition < |e.input|)
    ensures e.phase.Decoding? ==> ProposalLimit(e) > 0
  {
  }

  lemma ProposedIsDrafted(draft: Model, e: Execution, budget: nat, proposal: seq<Token>, before: seq<Token>, cache: seq<Token>)
    requires e.input != [] && !e.phase.Finished? && ProposedAt(draft, e, proposal, before, cache)
    requires e.phase.Prefilling? ==> e.draftPosition < |e.input| && before == e.input[..Max(e.draftPosition, ChunkEnd(e, budget))]
    requires e.phase.Decoding? ==> ProposalLimit(e) > 0
    ensures DraftedAt(draft, e, budget, proposal, cache)
  {
    hide ProposeFrom;
    if e.phase.Decoding? { ProposalNotEmpty(e.p, draft, e.tokens, ProposalLimit(e)); }
  }

  /** Target prefill and verification in one combined pass. */
  method RunTargetPass(target: SharedModel, draft: SharedModel, requests: seq<Execution>, budgets: seq<nat>, proposals: seq<seq<Token>>,
                       ghost targetBefore: Caches, ghost draftBefore: Caches) returns (logits: seq<Option<seq<Logits>>>)
    requires target != draft && BatchReady(requests, targetBefore, draftBefore) && |budgets| == |proposals| == |requests|
    requires AllReserved(requests, target.limits)
    requires target.caches == targetBefore && draft.caches.Keys == draftBefore.Keys
    requires forall k :: 0 <= k < |requests| ==>
               DraftedAt(draft.model, requests[k], budgets[k], proposals[k], draft.caches[requests[k].id])
    modifies target
    ensures target.caches.Keys == targetBefore.Keys && |logits| == |requests|
    ensures forall k :: 0 <= k < |requests| ==>
              PassedAt(target.model, draft.model, requests[k], budgets[k], proposals[k], logits[k],
                       target.caches[requests[k].id], draft.caches[requests[k].id])
    ensures forall id :: id in target.caches && id !in IdsOf(requests) ==> target.caches[id] == targetBefore[id]
  {
    hide ForwardedAt, PassedAt, Ready, DraftedAt, WithinLimit, Reserved;
    forall k | 0 <= k < |requests|
      ensures requests[k].input != [] && (requests[k].phase.Decoding? ==> requests[k].tokens != [] && proposals[k] != [])
    {
      DraftedFacts(draft.model, requests[k], budgets[k], proposals[k], draft.caches[requests[k].id]);
    }
    var inputs := seq(|requests|, k requires 0 <= k < |requests| => TargetInput(requests[k], budgets[k], proposals[k]));
    hide TargetInput;
    forall k | 0 <= k < |requests| && inputs[k].Some?
      ensures inputs[k].value.id == requests[k].id && inputs[k].value.start == |targetBefore[requests[k].id]|
      ensures WithinLimit(target.limits, inputs[k].value)
    {
      DraftedFacts(draft.model, requests[k], budgets[k], proposals[k], draft.caches[requests[k].id]);
      TargetInputFits(requests[k], budgets[k], proposals[k], targetBefore[requests[k].id], draftBefore[requests[k].id], target.limits);
    }
    logits := ForwardSome(target, IdsOf(requests), inputs);
    forall k | 0 <= k < |requests|
      ensures PassedAt(target.model, draft.model, requests[k], budgets[k], proposals[k], logits[k],
                       target.caches[requests[k].id], draft.caches[requests[k].id])
    {
      var e := requests[k];
      DraftedFacts(draft.model, e, budgets[k], proposals[k], draft.caches[e.id]);
      DraftedPasses(target.model, draft.model, e, budgets[k], proposals[k], targetBefore, target.caches, draftBefore[e.id],
                    draft.caches[e.id], logits[k]);
    }
  }

  lemma DraftedFacts(draft: Model, e: Execution, budget: nat, proposal: seq<Token>, cache: seq<Token>)
    requires DraftedAt(draft, e, budget, proposal, cache)
    ensures e.input != [] && (e.phase.Decoding? ==> e.tokens != [] && proposal != [])
    ensures e.phase.Decoding? ==> e.phase.generated <= e.p.maxNew && |proposal| <= e.p.maxNew - e.phase.generated
  {
  }

  lemma TargetInputFits(e: Execution, budget: nat, proposal: seq<Token>, targetCache: seq<Token>, draftCache: seq<Token>, limits: Limits)
    requires Ready(e, targetCache, draftCache) && (e.phase.Decoding? ==> e.tokens != [] && proposal != [])
    requires e.phase.Decoding? ==> |proposal| <= e.p.maxNew - e.phase.generated
    requires TargetInput(e, budget, proposal).Some? && Reserved(e, limits)
    ensures WithinLimit(limits, TargetInput(e, budget, proposal).value)
    ensures TargetInput(e, budget, proposal).value.id == e.id && TargetInput(e, budget, proposal).value.start == |targetCache|
  {
  }

  lemma DraftedPasses(target: Model, draft: Model, e: Execution, budget: nat, proposal: seq<Token>, caches: Caches, caches': Caches,
                      draftBefore: seq<Token>, draftCache: seq<Token>, logits: Option<seq<Logits>>)
    requires e.id in caches && Ready(e, caches[e.id], draftBefore) && !e.phase.Finished?
    requires DraftedAt(draft, e, budget, proposal, draftCache)
    requires ForwardedAt(target, caches, caches', e.id, TargetInput(e, budget, proposal), logits)
    ensures e.id in caches' && PassedAt(target, draft, e, budget, proposal, logits, caches'[e.id], draftCache)
  {
    hide ProposeFrom;
    TargetPass(target, draft, e, budget, proposal, caches, caches', draftCache, logits);
  }
}
