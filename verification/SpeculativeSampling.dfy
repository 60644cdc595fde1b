/** The law of one stochastic verification, over exact reals. `p` is the target's and `q` the draft's
    distribution over a vocabulary of n tokens, and `budget` the total variation budget. */
module SpeculativeSampling {
  type Weights = nat -> real

  function Sum(n: nat, f: Weights): real {
    if n == 0 then 0.0 else Sum(n - 1, f) + f(n - 1)
  }

  ghost predicate IsDistribution(n: nat, p: Weights) {
    (forall x: nat :: x < n ==> p(x) >= 0.0) && Sum(n, p) == 1.0
  }

  function Positive(x: real): real { if x > 0.0 then x else 0.0 }

  /** The weights a rejected token is replaced by. */
  function Residual(p: Weights, q: Weights): Weights { (x: nat) => Positive(p(x) - q(x)) }

  function Excess(p: Weights, q: Weights): Weights { (x: nat) => Positive(q(x) - p(x)) }

  /** Total variation distance. */
  function Distance(n: nat, p: Weights, q: Weights): real { Sum(n, Residual(p, q)) }

  /** How much of the draft's distribution the output keeps. */
  function Theta(n: nat, p: Weights, q: Weights, budget: real): real {
    if Distance(n, p, q) <= budget then 1.0 else if Distance(n, p, q) == 0.0 then 1.0 else budget / Distance(n, p, q)
  }

  /** The probability that a drawn token x is accepted. */
  function Acceptance(n: nat, p: Weights, q: Weights, budget: real, x: nat): real {
    if p(x) >= q(x) || q(x) == 0.0 then 1.0
    else if Distance(n, p, q) <= budget then 1.0
    else
      var theta := Theta(n, p, q, budget);
      theta + (1.0 - theta) * p(x) / q(x)
  }

  /** The probability that the drawn token, whichever it is, is rejected. */
  function RejectionMass(n: nat, p: Weights, q: Weights, budget: real): real { Sum(n, Rejected(n, p, q, budget)) }

  /** The probability that x is drawn and rejected. */
  function Rejected(n: nat, p: Weights, q: Weights, budget: real): Weights {
    (x: nat) => q(x) * (1.0 - Acceptance(n, p, q, budget, x))
  }

  function Plus(f: Weights, g: Weights): Weights { (x: nat) => f(x) + g(x) }

  function Times(c: real, f: Weights): Weights { (x: nat) => c * f(x) }

  /** The replacement's distribution: the normalized residual. */
  function Replacement(n: nat, p: Weights, q: Weights, y: nat): real {
    if Distance(n, p, q) == 0.0 then 0.0 else Residual(p, q)(y) / Distance(n, p, q)
  }

  /** The probability that one verification, of a token drawn from q, yields y. */
  function Output(n: nat, p: Weights, q: Weights, budget: real, y: nat): real {
    q(y) * Acceptance(n, p, q, budget, y) + RejectionMass(n, p, q, budget) * Replacement(n, p, q, y)
  }

  // ---- Sums -----------------------------------------------------------------------------------

  lemma {:induction false} SumCong(n: nat, f: Weights, g: Weights)
    requires forall x: nat :: x < n ==> f(x) == g(x)
    ensures Sum(n, f) == Sum(n, g)
    decreases n
  {
    if n > 0 { SumCong(n - 1, f, g); }
  }

  lemma {:induction false} SumAdd(n: nat, f: Weights, g: Weights, h: Weights)
    requires forall x: nat :: x < n ==> h(x) == f(x) + g(x)
    ensures Sum(n, h) == Sum(n, f) + Sum(n, g)
    decreases n
  {
    if n > 0 { SumAdd(n - 1, f, g, h); }
  }

  lemma {:induction false} SumScale(n: nat, c: real, f: Weights, h: Weights)
    requires forall x: nat :: x < n ==> h(x) == c * f(x)
    ensures Sum(n, h) == c * Sum(n, f)
    decreases n
  {
    if n > 0 { SumScale(n - 1, c, f, h); }
  }

  lemma {:induction false} SumNonNegative(n: nat, f: Weights)
    requires forall x: nat :: x < n ==> f(x) >= 0.0
    ensures Sum(n, f) >= 0.0
    ensures forall x: nat :: x < n ==> f(x) <= Sum(n, f)
    decreases n
  {
    if n > 0 { SumNonNegative(n - 1, f); }
  }

  /** A sum with one possibly non-zero term. */
  lemma {:induction false} SumSingle(n: nat, y: nat, f: Weights)
    requires forall x: nat :: x < n && x != y ==> f(x) == 0.0
    ensures Sum(n, f) == if y < n then f(y) else 0.0
    decreases n
  {
    if n > 0 { SumSingle(n - 1, y, f); }
  }

  // ---- The law --------------------------------------------------------------------------------

  /** What the draft has too much of equals what it has too little of. */
  lemma ExcessIsDistance(n: nat, p: Weights, q: Weights)
    requires IsDistribution(n, p) && IsDistribution(n, q)
    ensures Sum(n, Excess(p, q)) == Distance(n, p, q) && Distance(n, p, q) >= 0.0
  {
    SumAdd(n, p, Excess(p, q), Plus(p, Excess(p, q)));
    SumAdd(n, q, Residual(p, q), Plus(q, Residual(p, q)));
    SumCong(n, Plus(p, Excess(p, q)), Plus(q, Residual(p, q)));
    SumNonNegative(n, Residual(p, q));
  }

  /** The accepted part of q: what remains after (1 - theta) of the excess was rejected. */
  lemma AcceptedPart(n: nat, p: Weights, q: Weights, budget: real, x: nat)
    requires q(x) >= 0.0 && p(x) >= 0.0
    ensures q(x) * (1.0 - Acceptance(n, p, q, budget, x)) == (1.0 - Theta(n, p, q, budget)) * Excess(p, q)(x)
  {
    var theta := Theta(n, p, q, budget);
    if p(x) < q(x) && Distance(n, p, q) > budget {
      RejectedShare(theta, p(x), q(x));
    }
  }

  lemma RejectedShare(theta: real, p: real, q: real)
    requires q > 0.0
    ensures q * (1.0 - (theta + (1.0 - theta) * p / q)) == (1.0 - theta) * (q - p)
  {
    var share := (1.0 - theta) * p / q;
    assert share * q == (1.0 - theta) * p;
    assert q * (1.0 - (theta + share)) == q - theta * q - share * q;
  }

  lemma RejectionMassIs(n: nat, p: Weights, q: Weights, budget: real)
    requires IsDistribution(n, p) && IsDistribution(n, q)
    ensures RejectionMass(n, p, q, budget) == (1.0 - Theta(n, p, q, budget)) * Distance(n, p, q)
  {
    hide Theta, Acceptance, Excess, Distance, Sum;
    ExcessIsDistance(n, p, q);
    forall x: nat | x < n
      ensures Rejected(n, p, q, budget)(x) == (1.0 - Theta(n, p, q, budget)) * Excess(p, q)(x)
    {
      AcceptedPart(n, p, q, budget, x);
    }
    SumScale(n, 1.0 - Theta(n, p, q, budget), Excess(p, q), Rejected(n, p, q, budget));
  }

  /** The law of one verification: the output follows theta * q + (1 - theta) * p. */
  lemma VerificationLaw(n: nat, p: Weights, q: Weights, budget: real, y: nat)
    requires IsDistribution(n, p) && IsDistribution(n, q) && y < n
    ensures var theta := Theta(n, p, q, budget);
            Output(n, p, q, budget, y) == theta * q(y) + (1.0 - theta) * p(y)
  {
    hide Theta, Acceptance, RejectionMass, Replacement, Distance;
    var theta := Theta(n, p, q, budget);
    RejectionMassIs(n, p, q, budget);
    AcceptedPart(n, p, q, budget, y);
    ReplacementShare(n, p, q, theta, y);
    Difference(p(y), q(y), theta);
    assert q(y) * Acceptance(n, p, q, budget, y) == q(y) - q(y) * (1.0 - Acceptance(n, p, q, budget, y));
  }

  lemma ReplacementShare(n: nat, p: Weights, q: Weights, theta: real, y: nat)
    requires IsDistribution(n, p) && IsDistribution(n, q) && y < n
    ensures (1.0 - theta) * Distance(n, p, q) * Replacement(n, p, q, y) == (1.0 - theta) * Residual(p, q)(y)
  {
    var d := Distance(n, p, q);
    SumNonNegative(n, Residual(p, q));
    if d != 0.0 {
      var share := Residual(p, q)(y) / d;
      assert d * share == Residual(p, q)(y);
      assert (1.0 - theta) * d * share == (1.0 - theta) * (d * share);
    }
  }

  lemma Difference(p: real, q: real, theta: real)
    ensures q - (1.0 - theta) * Positive(q - p) + (1.0 - theta) * Positive(p - q) == theta * q + (1.0 - theta) * p
  {
    assert (1.0 - theta) * (q - p) == q - theta * q - p + theta * p;
  }

  /** theta lies between zero and one, and theta times the distance is the smaller of budget and distance. */
  lemma ThetaBounds(n: nat, p: Weights, q: Weights, budget: real)
    requires IsDistribution(n, p) && IsDistribution(n, q) && budget >= 0.0
    ensures 0.0 <= Theta(n, p, q, budget) <= 1.0
    ensures Theta(n, p, q, budget) * Distance(n, p, q) == if Distance(n, p, q) <= budget then Distance(n, p, q) else budget
  {
    ExcessIsDistance(n, p, q);
    var d := Distance(n, p, q);
    if d > budget {
      hide Distance, Excess;
      Fraction(budget, d);
    }
  }

  lemma NegativeProduct(t: real, d: real)
    requires t < 0.0 && d > 0.0
    ensures t * d < 0.0
  {
  }

  lemma Fraction(a: real, d: real)
    requires 0.0 <= a <= d && d > 0.0
    ensures a / d * d == a && 0.0 <= a / d <= 1.0
  {
    var t := a / d;
    assert t * d == a && (1.0 - t) * d == d - a;
    if t < 0.0 { NegativeProduct(t, d); }
    if 1.0 - t < 0.0 { NegativeProduct(1.0 - t, d); }
  }

  function OutputWeights(n: nat, p: Weights, q: Weights, budget: real): Weights { (y: nat) => Output(n, p, q, budget, y) }

  /** The output is a distribution whose total variation distance from the target is exactly the smaller
      of the budget and the draft's distance. */
  lemma OutputDistance(n: nat, p: Weights, q: Weights, budget: real)
    requires IsDistribution(n, p) && IsDistribution(n, q) && budget >= 0.0
    ensures IsDistribution(n, OutputWeights(n, p, q, budget))
    ensures Distance(n, p, OutputWeights(n, p, q, budget)) ==
            if Distance(n, p, q) <= budget then Distance(n, p, q) else budget
  {
    hide Theta, Output, Acceptance, Sum, Residual;
    var theta := Theta(n, p, q, budget);
    var out := OutputWeights(n, p, q, budget);
    ThetaBounds(n, p, q, budget);
    forall y: nat | y < n
      ensures out(y) == Plus(Times(theta, q), Times(1.0 - theta, p))(y) && out(y) >= 0.0
      ensures Residual(p, out)(y) == Times(theta, Residual(p, q))(y)
    {
      VerificationLaw(n, p, q, budget, y);
      MixtureFacts(p, q, out, theta, y);
    }
    MixtureSums(n, p, q, out, theta);
  }

  lemma MixtureSums(n: nat, p: Weights, q: Weights, out: Weights, theta: real)
    requires IsDistribution(n, p) && IsDistribution(n, q)
    requires forall y: nat :: y < n ==> out(y) == Plus(Times(theta, q), Times(1.0 - theta, p))(y)
    requires forall y: nat :: y < n ==> Residual(p, out)(y) == Times(theta, Residual(p, q))(y)
    ensures Sum(n, out) == 1.0 && Distance(n, p, out) == theta * Distance(n, p, q)
  {
    hide Residual, Sum;
    SumScale(n, theta, q, Times(theta, q));
    SumScale(n, 1.0 - theta, p, Times(1.0 - theta, p));
    SumAdd(n, Times(theta, q), Times(1.0 - theta, p), out);
    SumScale(n, theta, Residual(p, q), Residual(p, out));
  }

  lemma Product(a: real, b: real)
    requires a >= 0.0 && b >= 0.0
    ensures a * b >= 0.0
  {
  }

  lemma MixtureFacts(p: Weights, q: Weights, out: Weights, theta: real, y: nat)
    requires 0.0 <= theta <= 1.0 && p(y) >= 0.0 && q(y) >= 0.0 && out(y) == theta * q(y) + (1.0 - theta) * p(y)
    ensures out(y) >= 0.0 && Residual(p, out)(y) == theta * Residual(p, q)(y)
  {
    var d := p(y) - q(y);
    Product(theta, q(y));
    Product(1.0 - theta, p(y));
    assert p(y) - out(y) == theta * d;
    if d > 0.0 {
      Product(theta, d);
    } else {
      Product(theta, -d);
      assert theta * d == -(theta * (-d));
    }
  }

  /** Without a budget the output is the target's distribution. */
  lemma ExactWithoutBudget(n: nat, p: Weights, q: Weights, y: nat)
    requires IsDistribution(n, p) && IsDistribution(n, q) && y < n
    ensures Output(n, p, q, 0.0, y) == p(y)
  {
    VerificationLaw(n, p, q, 0.0, y);
    ExcessIsDistance(n, p, q);
    if Distance(n, p, q) <= 0.0 {
      SumNonNegative(n, Residual(p, q));
      SumNonNegative(n, Excess(p, q));
      assert Residual(p, q)(y) <= 0.0 && Excess(p, q)(y) <= 0.0;
    }
  }
}
