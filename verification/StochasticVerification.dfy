/** The sampler's verification of one draft token drawn from the draft's distribution. It computes on
    the models' unnormalized weights; its decision is the one the law of one verification is about. */
module StochasticVerification {
  import opened SpeculativeSampling

  datatype Verdict =
    | SizesDiffer
    | AcceptDraft
    | Replace(residual: seq<real>)

  /** Weights of the listed tokens, and nothing for any other token. */
  function Listed(s: seq<real>): Weights { (x: nat) => if x < |s| then s[x] else 0.0 }

  /** The listed weights as a distribution. */
  function Normalized(s: seq<real>): Weights {
    var total := Sum(|s|, Listed(s));
    (x: nat) => if x < |s| && total != 0.0 then s[x] / total else 0.0
  }

  ghost predicate NonNegative(s: seq<real>) { forall i :: 0 <= i < |s| ==> s[i] >= 0.0 }

  /** Non-negative weights with a positive one. */
  ghost predicate Proper(s: seq<real>) { NonNegative(s) && Sum(|s|, Listed(s)) > 0.0 }

  lemma NormalizedIsDistribution(s: seq<real>)
    requires Proper(s)
    ensures IsDistribution(|s|, Normalized(s))
  {
    var total := Sum(|s|, Listed(s));
    var share := 1.0 / total;
    forall x: nat | x < |s|
      ensures Normalized(s)(x) == share * Listed(s)(x) && Normalized(s)(x) >= 0.0
    {
      Quotient(s[x], total);
    }
    SumScale(|s|, share, Listed(s), Normalized(s));
  }

  lemma Quotient(w: real, total: real)
    requires w >= 0.0 && total > 0.0
    ensures w / total == (1.0 / total) * w && w / total >= 0.0
  {
    var q := w / total;
    assert q * total == w;
    if q < 0.0 { Product(-q, total); }
  }

  method Total(s: seq<real>) returns (total: real)
    ensures total == Sum(|s|, Listed(s))
  {
    total := 0.0;
    for i := 0 to |s|
      invariant total == Sum(i, Listed(s))
    {
      total := total + s[i];
    }
  }

  /** The positive parts of the differences of the normalized weights, and their sum. */
  method ResidualWeights(target: seq<real>, draft: seq<real>, targetSum: real, draftSum: real)
    returns (residual: seq<real>, distance: real)
    requires |target| == |draft| && targetSum == Sum(|target|, Listed(target)) && draftSum == Sum(|draft|, Listed(draft))
    requires targetSum > 0.0 && draftSum > 0.0
    ensures |residual| == |target| && forall x :: 0 <= x < |residual| ==> residual[x] == Residual(Normalized(target), Normalized(draft))(x)
    ensures distance == Distance(|target|, Normalized(target), Normalized(draft))
  {
    residual, distance := [], 0.0;
    for i := 0 to |target|
      invariant |residual| == i && distance == Sum(i, Residual(Normalized(target), Normalized(draft)))
      invariant forall x :: 0 <= x < i ==> residual[x] == Residual(Normalized(target), Normalized(draft))(x)
    {
      var w := Positive(target[i] / targetSum - draft[i] / draftSum);
      residual, distance := residual + [w], distance + w;
    }
  }

  /** Verifies a draft token against the uniform draw u. The draft token is kept exactly when u falls
      below its acceptance probability; otherwise it is replaced by a token drawn with the residual
      weights, whose total is then positive. */
  method VerifyStochasticDraftToken(token: nat, target: seq<real>, draft: seq<real>, budget: real, u: real) returns (verdict: Verdict)
    requires token < |draft| && NonNegative(draft) && draft[token] > 0.0
    requires Proper(target) && 0.0 <= u < 1.0 && budget >= 0.0
    ensures verdict.SizesDiffer? <==> |target| != |draft|
    ensures |target| == |draft| ==>
              (verdict == AcceptDraft <==> u < Acceptance(|target|, Normalized(target), Normalized(draft), budget, token))
    ensures verdict.Replace? ==>
              && |verdict.residual| == |target|
              && (forall x :: 0 <= x < |target| ==> verdict.residual[x] == Residual(Normalized(target), Normalized(draft))(x))
              && Sum(|target|, Listed(verdict.residual)) == Distance(|target|, Normalized(target), Normalized(draft)) > 0.0
    ensures verdict.Replace? ==> verdict.residual[token] == 0.0
  {
    hide Sum;
    if |target| != |draft| { return SizesDiffer; }
    var targetSum := Total(target);
    var draftSum := Total(draft);
    SumNonNegative(|draft|, Listed(draft));
    assert Listed(draft)(token) <= draftSum;
    var q := draft[token] / draftSum;
    var p := target[token] / targetSum;
    assert q > 0.0 by { assert q * draftSum == draft[token]; if q <= 0.0 { Product(-q, draftSum); } }
    if p >= q { return AcceptDraft; }
    var residual, distance := ResidualWeights(target, draft, targetSum, draftSum);
    if distance <= budget { return AcceptDraft; }
    var theta := budget / distance;
    if u < theta + (1.0 - theta) * p / q { return AcceptDraft; }
    SumCong(|target|, Listed(residual), Residual(Normalized(target), Normalized(draft)));
    verdict := Replace(residual);
  }

  /** Read with the law of one verification: over a uniform u and a draft token drawn from the draft's
      weights, the resulting token follows the mixture the sampler documents. */
  lemma MentoredMixture(target: seq<real>, draft: seq<real>, budget: real, y: nat)
    requires |target| == |draft| && Proper(target) && Proper(draft) && y < |target|
    ensures var (n, p, q) := (|target|, Normalized(target), Normalized(draft));
            var theta := Theta(n, p, q, budget);
            Output(n, p, q, budget, y) == theta * draft[y] / Sum(n, Listed(draft)) + (1.0 - theta) * target[y] / Sum(n, Listed(target))
  {
    hide Sum, Theta, Output;
    NormalizedIsDistribution(target);
    NormalizedIsDistribution(draft);
    var n, p, q := |target|, Normalized(target), Normalized(draft);
    VerificationLaw(n, p, q, budget, y);
    var theta := Theta(n, p, q, budget);
    Associate(theta, draft[y], Sum(n, Listed(draft)));
    Associate(1.0 - theta, target[y], Sum(n, Listed(target)));
  }

  lemma Associate(a: real, b: real, c: real)
    requires c != 0.0
    ensures a * (b / c) == a * b / c
  {
  }
}
