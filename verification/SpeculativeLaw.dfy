/** The law of whole speculative iterations without a total variation budget: all draft tokens are drawn
    first and verified afterwards, rejected ones are replaced, and generation goes on with further
    iterations or with target sampling. The probability that the output begins with a given sequence
    is the target's own. */
module SpeculativeLaw {
  import opened Common
  import opened SpeculativeSampling

  /** A model's next-token distribution, given the tokens so far. */
  type Sampler = seq<Token> -> Weights

  /** The vocabulary size, the end-of-sequence tokens, and the two models. */
  datatype Setting = Setting(n: nat, eos: set<Token>, target: Sampler, draft: Sampler)

  ghost predicate SettingOk(g: Setting) {
    forall context: seq<Token> {:trigger g.target(context)} {:trigger g.draft(context)} ::
      IsDistribution(g.n, g.target(context)) && IsDistribution(g.n, g.draft(context))
  }

  /** The probability that an output from here on begins with y. */
  type Continuation = (seq<Token>, seq<Token>) -> real

  /** How a verification went: accepted and proposed tokens, which is what a draft-count policy sees. */
  type Tally = (nat, nat)

  /** What comes after an iteration may depend on how its verification went. */
  type Follow = Tally -> Continuation

  /** What follows once the token t of y is out: an end of sequence ends the output. */
  function AfterToken(g: Setting, context: seq<Token>, y: seq<Token>, rest: Continuation): real
    requires y != []
  {
    if y[0] in g.eos then (if |y| == 1 then 1.0 else 0.0) else rest(context + [y[0]], y[1..])
  }

  /** Target sampling, token by token. */
  function TargetProbability(g: Setting, context: seq<Token>, y: seq<Token>): real
    decreases |y|
  {
    if y == [] then 1.0
    else if y[0] >= g.n then 0.0
    else
      g.target(context)(y[0]) *
      (if y[0] in g.eos then (if |y| == 1 then 1.0 else 0.0) else TargetProbability(g, context + [y[0]], y[1..]))
  }

  /** The probability, over the verification of the drawn tokens from position i on and whatever follows,
      that the output from position i on begins with y. */
  function Verified(g: Setting, context: seq<Token>, drawn: seq<Token>, i: nat, y: seq<Token>, next: Follow): real
    requires i <= |drawn|
    decreases |drawn| - i
  {
    if y == [] then 1.0
    else if i == |drawn| then next((i, |drawn|))(context + drawn, y)
    else
      var here := context + drawn[..i];
      var p, q := g.target(here), g.draft(here);
      var accept := Acceptance(g.n, p, q, 0.0, drawn[i]);
      accept * Accepted(g, context, drawn, i, y, next) + (1.0 - accept) * Replaced(g, here, y, next((i, |drawn|)))
  }

  /** The drawn token was accepted: it must be the first token of y. */
  function Accepted(g: Setting, context: seq<Token>, drawn: seq<Token>, i: nat, y: seq<Token>, next: Follow): real
    requires i < |drawn| && y != []
    decreases |drawn| - i, 0
  {
    if drawn[i] != y[0] then 0.0
    else if y[0] in g.eos then (if |y| == 1 then 1.0 else 0.0)
    else Verified(g, context, drawn, i + 1, y[1..], next)
  }

  /** The drawn token was rejected: the replacement must be the first token of y, and the iteration ends. */
  function Replaced(g: Setting, here: seq<Token>, y: seq<Token>, next: Continuation): real
    requires y != []
  {
    if y[0] >= g.n then 0.0
    else Replacement(g.n, g.target(here), g.draft(here), y[0]) * AfterToken(g, here, y, next)
  }

  /** No further token is drawn after an end of sequence or the limit. */
  predicate DrawingStops(g: Setting, drawn: seq<Token>, limit: nat) {
    |drawn| >= limit || (drawn != [] && Last(drawn) in g.eos)
  }

  /** The expectation of `value` over the draft tokens drawn after `drawn`, up to `limit` in all. */
  ghost function OverDraws(g: Setting, context: seq<Token>, drawn: seq<Token>, limit: nat, value: seq<Token> -> real): real
    decreases if |drawn| <= limit then limit - |drawn| else 0
  {
    if DrawingStops(g, drawn, limit) then value(drawn)
    else Sum(g.n, NextDraws(g, context, drawn, limit, value))
  }

  ghost function NextDraws(g: Setting, context: seq<Token>, drawn: seq<Token>, limit: nat, value: seq<Token> -> real): Weights
    requires |drawn| < limit
    decreases limit - |drawn|, 0
  {
    (x: nat) => g.draft(context + drawn)(x) * OverDraws(g, context, drawn + [x], limit, value)
  }

  /** One iteration: draw all tokens, then verify them, then go on with `next`. */
  ghost function Iteration(g: Setting, context: seq<Token>, limit: nat, y: seq<Token>, next: Follow): real {
    OverDraws(g, context, [], limit, (drawn: seq<Token>) => Verified(g, context, drawn, 0, y, next))
  }

  // ---- Expectations are linear ----------------------------------------------------------------

  ghost predicate AgreeOn(drawn: seq<Token>, f: seq<Token> -> real, a: real, h: seq<Token> -> real, b: real) {
    forall d :: drawn <= d ==> f(d) == a * h(d) + b
  }

  /** If a value is a * h + b on everything that can still be drawn, so is its expectation. */
  lemma {:induction false} ExpectationAffine(g: Setting, context: seq<Token>, drawn: seq<Token>, limit: nat, f: seq<Token> -> real,
                                             a: real, h: seq<Token> -> real, b: real)
    requires SettingOk(g) && AgreeOn(drawn, f, a, h, b)
    ensures OverDraws(g, context, drawn, limit, f) == a * OverDraws(g, context, drawn, limit, h) + b
    decreases if |drawn| <= limit then limit - |drawn| else 0
  {
    if !DrawingStops(g, drawn, limit) {
      hide Sum;
      var q := g.draft(context + drawn);
      forall x: nat | x < g.n
        ensures NextDraws(g, context, drawn, limit, f)(x) ==
                Plus(Times(a, NextDraws(g, context, drawn, limit, h)), Times(b, q))(x)
      {
        forall d | drawn + [x] <= d ensures f(d) == a * h(d) + b { assert drawn <= d; }
        ExpectationAffine(g, context, drawn + [x], limit, f, a, h, b);
        NextDrawAffine(g, context, drawn, limit, f, a, h, b, x);
      }
      SumScale(g.n, a, NextDraws(g, context, drawn, limit, h), Times(a, NextDraws(g, context, drawn, limit, h)));
      SumScale(g.n, b, q, Times(b, q));
      SumAdd(g.n, Times(a, NextDraws(g, context, drawn, limit, h)), Times(b, q), NextDraws(g, context, drawn, limit, f));
      assert IsDistribution(g.n, g.draft(context + drawn));
    }
  }

  lemma NextDrawAffine(g: Setting, context: seq<Token>, drawn: seq<Token>, limit: nat, f: seq<Token> -> real,
                       a: real, h: seq<Token> -> real, b: real, x: nat)
    requires |drawn| < limit
    requires OverDraws(g, context, drawn + [x], limit, f) == a * OverDraws(g, context, drawn + [x], limit, h) + b
    ensures NextDraws(g, context, drawn, limit, f)(x) ==
            Plus(Times(a, NextDraws(g, context, drawn, limit, h)), Times(b, g.draft(context + drawn)))(x)
  {
    hide OverDraws;
    Distribute(g.draft(context + drawn)(x), OverDraws(g, context, drawn + [x], limit, f), a,
               OverDraws(g, context, drawn + [x], limit, h), b);
  }

  lemma Distribute(q: real, f: real, a: real, h: real, b: real)
    requires f == a * h + b
    ensures q * f == a * (q * h) + b * q
  {
  }

  // ---- One iteration --------------------------------------------------------------------------

  /** From here on `next` gives the target's probabilities. */
  ghost predicate Faithful(g: Setting, next: Continuation) {
    forall context, y :: next(context, y) == TargetProbability(g, context, y)
  }

  /** However the verification went. */
  ghost predicate AlwaysFaithful(g: Setting, next: Follow) {
    forall tally :: Faithful(g, next(tally))
  }

  lemma ReplacedAgree(g: Setting, here: seq<Token>, y: seq<Token>, a: Continuation, b: Continuation)
    requires Faithful(g, a) && Faithful(g, b) && y != []
    ensures Replaced(g, here, y, a) == Replaced(g, here, y, b) && AfterToken(g, here, y, a) == AfterToken(g, here, y, b)
  {
  }

  ghost function VerifiedFrom(g: Setting, context: seq<Token>, i: nat, y: seq<Token>, next: Follow): seq<Token> -> real {
    (drawn: seq<Token>) => if i <= |drawn| then Verified(g, context, drawn, i, y, next) else 0.0
  }

  /** With the tokens before position |drawn| accepted, the expectation over the tokens still to be drawn,
      and then over their verification, is the target's probability. */
  lemma {:induction false} DrawThenVerify(g: Setting, context: seq<Token>, drawn: seq<Token>, limit: nat, y: seq<Token>, next: Follow)
    requires SettingOk(g) && AlwaysFaithful(g, next)
    requires drawn == [] || Last(drawn) !in g.eos
    ensures OverDraws(g, context, drawn, limit, VerifiedFrom(g, context, |drawn|, y, next)) ==
            TargetProbability(g, context + drawn, y)
    decreases if |drawn| <= limit then limit - |drawn| else 0
  {
    var i, base := |drawn|, next((0, 0));
    assert Faithful(g, base);
    if DrawingStops(g, drawn, limit) {
      assert Faithful(g, next((i, i)));
    } else if y == [] {
      ExpectationAffine(g, context, drawn, limit, VerifiedFrom(g, context, i, y, next), 0.0, VerifiedFrom(g, context, i, y, next), 1.0);
    } else {
      forall x: nat | x < g.n
        ensures NextDraws(g, context, drawn, limit, VerifiedFrom(g, context, i, y, next))(x) == Branch(g, context + drawn, y, base)(x)
      {
        if x !in g.eos && x == y[0] { DrawThenVerify(g, context, drawn + [x], limit, y[1..], next); }
        DrawnBranch(g, context, drawn, limit, y, next, x);
      }
      SumCong(g.n, NextDraws(g, context, drawn, limit, VerifiedFrom(g, context, i, y, next)), Branch(g, context + drawn, y, base));
      BranchesSum(g, context + drawn, y, base);
    }
  }

  /** What drawing x next contributes: accepted and equal to the first token of y, or rejected and replaced
      by it. */
  ghost function Branch(g: Setting, here: seq<Token>, y: seq<Token>, next: Continuation): Weights
    requires y != []
  {
    (x: nat) =>
      g.draft(here)(x) *
      (Acceptance(g.n, g.target(here), g.draft(here), 0.0, x) * (if x == y[0] then AfterToken(g, here, y, next) else 0.0)
       + (1.0 - Acceptance(g.n, g.target(here), g.draft(here), 0.0, x)) * Replaced(g, here, y, next))
  }

  lemma DrawnBranch(g: Setting, context: seq<Token>, drawn: seq<Token>, limit: nat, y: seq<Token>, next: Follow, x: nat)
    requires SettingOk(g) && AlwaysFaithful(g, next) && y != [] && |drawn| < limit && !DrawingStops(g, drawn, limit)
    requires x !in g.eos && x == y[0] ==>
               OverDraws(g, context, drawn + [x], limit, VerifiedFrom(g, context, |drawn| + 1, y[1..], next)) ==
               TargetProbability(g, context + (drawn + [x]), y[1..])
    ensures NextDraws(g, context, drawn, limit, VerifiedFrom(g, context, |drawn|, y, next))(x) ==
            Branch(g, context + drawn, y, next((0, 0)))(x)
  {
    hide Verified, Replaced, Acceptance, OverDraws, SettingOk, AlwaysFaithful;
    if x == y[0] && x !in g.eos {
      AcceptedBranch(g, context, drawn, limit, y, next, x);
    } else {
      OtherBranch(g, context, drawn, limit, y, next, x);
    }
  }

  /** The value of a draw whose token at position i is x. What follows a replacement does not depend on how
      many tokens were drawn after it. */
  lemma VerifiedHere(g: Setting, context: seq<Token>, d: seq<Token>, drawn: seq<Token>, x: nat, y: seq<Token>, next: Follow)
    requires AlwaysFaithful(g, next) && drawn + [x] <= d && y != []
    ensures var i, here := |drawn|, context + drawn;
            var accept := Acceptance(g.n, g.target(here), g.draft(here), 0.0, x);
            VerifiedFrom(g, context, i, y, next)(d) ==
            accept * Accepted(g, context, d, i, y, next) + (1.0 - accept) * Replaced(g, here, y, next((0, 0)))
    ensures d[|drawn|] == x
  {
    hide Acceptance, Replaced, Accepted;
    assert d[..|drawn|] == drawn && d[|drawn|] == x;
    assert Faithful(g, next((|drawn|, |d|))) && Faithful(g, next((0, 0)));
    ReplacedAgree(g, context + drawn, y, next((|drawn|, |d|)), next((0, 0)));
  }

  lemma AcceptedBranch(g: Setting, context: seq<Token>, drawn: seq<Token>, limit: nat, y: seq<Token>, next: Follow, x: nat)
    requires SettingOk(g) && AlwaysFaithful(g, next) && y != [] && x == y[0] && x !in g.eos
    requires OverDraws(g, context, drawn + [x], limit, VerifiedFrom(g, context, |drawn| + 1, y[1..], next)) ==
             TargetProbability(g, context + (drawn + [x]), y[1..])
    ensures var here, base := context + drawn, next((0, 0));
            var accept := Acceptance(g.n, g.target(here), g.draft(here), 0.0, x);
            OverDraws(g, context, drawn + [x], limit, VerifiedFrom(g, context, |drawn|, y, next)) ==
            accept * AfterToken(g, here, y, base) + (1.0 - accept) * Replaced(g, here, y, base)
  {
    hide Replaced, Acceptance, OverDraws, SettingOk, TargetProbability;
    var i, here, base := |drawn|, context + drawn, next((0, 0));
    var accept := Acceptance(g.n, g.target(here), g.draft(here), 0.0, x);
    var tail := Replaced(g, here, y, base);
    var f, h := VerifiedFrom(g, context, i, y, next), VerifiedFrom(g, context, i + 1, y[1..], next);
    forall d | drawn + [x] <= d ensures f(d) == accept * h(d) + (1.0 - accept) * tail {
      VerifiedHere(g, context, d, drawn, x, y, next);
      assert Accepted(g, context, d, i, y, next) == h(d);
    }
    ExpectationAffine(g, context, drawn + [x], limit, f, accept, h, (1.0 - accept) * tail);
    assert context + (drawn + [x]) == here + [x];
    assert Faithful(g, base);
    assert AfterToken(g, here, y, base) == base(here + [y[0]], y[1..]);
  }

  lemma OtherBranch(g: Setting, context: seq<Token>, drawn: seq<Token>, limit: nat, y: seq<Token>, next: Follow, x: nat)
    requires SettingOk(g) && AlwaysFaithful(g, next) && y != [] && (x != y[0] || x in g.eos)
    ensures var here, base := context + drawn, next((0, 0));
            var accept := Acceptance(g.n, g.target(here), g.draft(here), 0.0, x);
            OverDraws(g, context, drawn + [x], limit, VerifiedFrom(g, context, |drawn|, y, next)) ==
            accept * (if x == y[0] then AfterToken(g, here, y, base) else 0.0) + (1.0 - accept) * Replaced(g, here, y, base)
  {
    hide Replaced, Acceptance, OverDraws, SettingOk, AlwaysFaithful;
    var i, here, base := |drawn|, context + drawn, next((0, 0));
    var accept := Acceptance(g.n, g.target(here), g.draft(here), 0.0, x);
    var fixed := if x == y[0] then AfterToken(g, here, y, base) else 0.0;
    var all := accept * fixed + (1.0 - accept) * Replaced(g, here, y, base);
    var f := VerifiedFrom(g, context, i, y, next);
    forall d | drawn + [x] <= d ensures f(d) == 0.0 * f(d) + all {
      VerifiedHere(g, context, d, drawn, x, y, next);
      assert Accepted(g, context, d, i, y, next) == fixed;
    }
    ExpectationAffine(g, context, drawn + [x], limit, f, 0.0, f, all);
  }

  /** Summed over the drawn token, the branches give one verification's output law, which without a budget
      is the target's distribution. */
  lemma BranchesSum(g: Setting, here: seq<Token>, y: seq<Token>, next: Continuation)
    requires SettingOk(g) && Faithful(g, next) && y != []
    ensures Sum(g.n, Branch(g, here, y, next)) == TargetProbability(g, here, y)
  {
    hide Replaced, Acceptance, Sum, Rejected, AfterToken, TargetProbability;
    var p, q := g.target(here), g.draft(here);
    var out, tail := AfterToken(g, here, y, next), Replaced(g, here, y, next);
    var hit := HitWeights(g.n, p, q, y[0], out);
    SumSingle(g.n, y[0], hit);
    SumScale(g.n, tail, Rejected(g.n, p, q, 0.0), Times(tail, Rejected(g.n, p, q, 0.0)));
    forall x: nat | x < g.n ensures Branch(g, here, y, next)(x) == hit(x) + Times(tail, Rejected(g.n, p, q, 0.0))(x) {
      BranchSplits(g, here, y, next, x);
    }
    SumAdd(g.n, hit, Times(tail, Rejected(g.n, p, q, 0.0)), Branch(g, here, y, next));
    FirstTokenLaw(g, here, y, next);
  }

  function HitWeights(n: nat, p: Weights, q: Weights, y: nat, out: real): Weights {
    (x: nat) => if x == y then q(x) * Acceptance(n, p, q, 0.0, x) * out else 0.0
  }

  lemma BranchSplits(g: Setting, here: seq<Token>, y: seq<Token>, next: Continuation, x: nat)
    requires y != []
    ensures var p, q := g.target(here), g.draft(here);
            Branch(g, here, y, next)(x) ==
            HitWeights(g.n, p, q, y[0], AfterToken(g, here, y, next))(x) +
            Times(Replaced(g, here, y, next), Rejected(g.n, p, q, 0.0))(x)
  {
    hide Replaced, Acceptance, AfterToken;
    SplitBranch(g.draft(here)(x), Acceptance(g.n, g.target(here), g.draft(here), 0.0, x),
                if x == y[0] then AfterToken(g, here, y, next) else 0.0, Replaced(g, here, y, next));
  }

  lemma FirstTokenLaw(g: Setting, here: seq<Token>, y: seq<Token>, next: Continuation)
    requires SettingOk(g) && Faithful(g, next) && y != []
    ensures var p, q := g.target(here), g.draft(here);
            var out := AfterToken(g, here, y, next);
            (if y[0] < g.n then HitWeights(g.n, p, q, y[0], out)(y[0]) else 0.0)
            + Replaced(g, here, y, next) * RejectionMass(g.n, p, q, 0.0) == TargetProbability(g, here, y)
  {
    hide Acceptance, RejectionMass, Replacement, AfterToken, TargetProbability, SettingOk, Output, IsDistribution;
    var p, q := g.target(here), g.draft(here);
    var out := AfterToken(g, here, y, next);
    TargetFirst(g, here, y, next);
    if y[0] < g.n {
      OutputOfFirst(g, here, y[0]);
      Factor(q(y[0]) * Acceptance(g.n, p, q, 0.0, y[0]), RejectionMass(g.n, p, q, 0.0), Replacement(g.n, p, q, y[0]), out);
    }
  }

  lemma TargetFirst(g: Setting, here: seq<Token>, y: seq<Token>, next: Continuation)
    requires Faithful(g, next) && y != []
    ensures TargetProbability(g, here, y) == if y[0] < g.n then g.target(here)(y[0]) * AfterToken(g, here, y, next) else 0.0
  {
  }

  lemma OutputOfFirst(g: Setting, here: seq<Token>, t: nat)
    requires SettingOk(g) && t < g.n
    ensures var p, q := g.target(here), g.draft(here);
            q(t) * Acceptance(g.n, p, q, 0.0, t) + RejectionMass(g.n, p, q, 0.0) * Replacement(g.n, p, q, t) == p(t)
  {
    hide Acceptance, RejectionMass, Replacement, IsDistribution;
    assert IsDistribution(g.n, g.target(here)) && IsDistribution(g.n, g.draft(here));
    ExactWithoutBudget(g.n, g.target(here), g.draft(here), t);
  }

  lemma SplitBranch(q: real, accept: real, out: real, tail: real)
    ensures q * (accept * out + (1.0 - accept) * tail) == q * accept * out + tail * (q * (1.0 - accept))
  {
  }

  lemma Factor(hit: real, mass: real, share: real, out: real)
    ensures hit * out + share * out * mass == (hit + mass * share) * out
  {
  }

  /** One iteration followed by anything faithful is faithful: every output sequence has exactly the
      target's probability, for every draft model and every number of proposals, even when what follows
      depends on how many tokens were accepted and proposed. */
  lemma IterationIsExact(g: Setting, context: seq<Token>, limit: nat, y: seq<Token>, next: Follow)
    requires SettingOk(g) && AlwaysFaithful(g, next)
    ensures Iteration(g, context, limit, y, next) == TargetProbability(g, context, y)
  {
    var f := (drawn: seq<Token>) => Verified(g, context, drawn, 0, y, next);
    var h := VerifiedFrom(g, context, 0, y, next);
    assert AgreeOn([], f, 1.0, h, 0.0);
    ExpectationAffine(g, context, [], limit, f, 1.0, h, 0.0);
    DrawThenVerify(g, context, [], limit, y, next);
    assert context + [] == context;
  }

  // ---- Repeated iterations --------------------------------------------------------------------

  /** How many tokens to draw, given every verification so far and everything generated so far. */
  type CountPolicy = (seq<Tally>, seq<Token>) -> nat

  /** At most `rounds` iterations, each with a draft count that may depend on all earlier verifications and
      on everything generated so far, and target sampling after that. */
  ghost function Rounds(g: Setting, counts: CountPolicy, rounds: nat, history: seq<Tally>, context: seq<Token>, y: seq<Token>): real
    decreases rounds
  {
    if rounds == 0 then TargetProbability(g, context, y)
    else Iteration(g, context, counts(history, context), y, AfterRound(g, counts, rounds, history))
  }

  ghost function AfterRound(g: Setting, counts: CountPolicy, rounds: nat, history: seq<Tally>): Follow
    requires rounds > 0
    decreases rounds, 0
  {
    (tally: Tally) => (context: seq<Token>, y: seq<Token>) => Rounds(g, counts, rounds - 1, history + [tally], context, y)
  }

  /** Stochastic speculative decoding without a budget is lossless: over any number of iterations, for any
      draft model and any draft-count policy that adapts to what was accepted, every output has the
      target's probability. */
  lemma {:induction false} RoundsAreExact(g: Setting, counts: CountPolicy, rounds: nat, history: seq<Tally>, context: seq<Token>, y: seq<Token>)
    requires SettingOk(g)
    ensures Rounds(g, counts, rounds, history, context, y) == TargetProbability(g, context, y)
    decreases rounds
  {
    if rounds > 0 {
      var next := AfterRound(g, counts, rounds, history);
      forall tally: Tally ensures Faithful(g, next(tally)) {
        forall c: seq<Token>, z: seq<Token> ensures next(tally)(c, z) == TargetProbability(g, c, z) {
          RoundsAreExact(g, counts, rounds - 1, history + [tally], c, z);
        }
      }
      IterationIsExact(g, context, counts(history, context), y, next);
    }
  }
}
