/** How many draft tokens to propose: fixed, or adapted to how many were accepted. Rates and smoothed
    lengths are exact reals. */
module DraftTokenCount {
  import opened Common

  datatype Policy =
    | Fixed(count: nat)
    | AcceptanceRate(initial: nat, decreaseBelow: real, increaseAbove: real, minimum: nat, maximum: nat)
    | AcceptedLength(initial: nat, smoothing: real, minimum: nat, maximum: nat)

  /** What configuration validation demands. */
  predicate ValidPolicy(p: Policy) {
    match p
    case Fixed(n) => n >= 1
    case AcceptanceRate(initial, low, high, least, most) =>
      1 <= least <= initial <= most && 0.0 <= low <= 1.0 && 0.0 <= high <= 1.0 && low <= high
    case AcceptedLength(initial, smoothing, least, most) => 1 <= least <= initial <= most && 0.0 < smoothing <= 1.0
  }

  function Least(p: Policy): nat {
    match p
    case Fixed(n) => n
    case AcceptanceRate(_, _, _, least, _) => least
    case AcceptedLength(_, _, least, _) => least
  }

  function Most(p: Policy): nat {
    match p
    case Fixed(n) => n
    case AcceptanceRate(_, _, _, _, most) => most
    case AcceptedLength(_, _, _, most) => most
  }

  /** `f32::round` of a value that is not negative, as a count: the nearest one, the larger of two. */
  function Rounded(x: real): (n: nat)
    requires x >= 0.0
    ensures n as real - 0.5 <= x < n as real + 0.5
  {
    (x + 0.5).Floor
  }

  function Clamp(x: nat, least: nat, most: nat): (n: nat)
    requires least <= most
    ensures least <= n <= most
  {
    if x < least then least else if x > most then most else x
  }

  /** What the controller keeps: the present count and the smoothed accepted length. */
  datatype Counts = Counts(current: nat, smoothed: real)

  /** `new`. */
  function Initial(p: Policy): Counts {
    match p
    case Fixed(n) => Counts(n, 0.0)
    case AcceptanceRate(n, _, _, _, _) => Counts(n, 0.0)
    case AcceptedLength(n, _, _, _) => Counts(n, Max(n - 1, 0) as real)
  }

  predicate InLimits(p: Policy, c: Counts) { Least(p) <= c.current <= Most(p) && c.smoothed >= 0.0 }

  /** A weighted mean of the newly accepted length and the smoothed one. */
  function Smoothed(factor: real, accepted: nat, length: real): (r: real)
    requires 0.0 < factor <= 1.0 && length >= 0.0
    ensures r >= 0.0
  {
    SmoothedStaysNonNegative(factor, accepted, length);
    factor * accepted as real + (1.0 - factor) * length
  }

  /** `update` after a verification of at least one token. */
  function Adapted(p: Policy, c: Counts, accepted: nat, proposed: nat): Counts
    requires ValidPolicy(p) && InLimits(p, c) && accepted <= proposed
  {
    if proposed == 0 then c
    else
      match p
      case Fixed(_) => c
      case AcceptanceRate(_, low, high, least, most) =>
        var rate := accepted as real / proposed as real;
        if rate < low then c.(current := Max(Max(c.current - 1, 0), least))
        else if rate > high then c.(current := Min(c.current + 1, most))
        else c
      case AcceptedLength(_, smoothing, least, most) =>
        var smoothed := Smoothed(smoothing, accepted, c.smoothed);
        Counts(Clamp(Rounded(smoothed) + 1, least, most), smoothed)
  }

  /** The count stays within the policy's limits. By acceptance rate it moves one step down below the lower
      threshold and one step up above the upper one, where the limits allow, and else stays; by accepted
      length it is one more than the smoothed length rounded to the nearest count, or the limit nearest to
      that; a fixed count never changes. */
  lemma AdaptedExact(p: Policy, c: Counts, accepted: nat, proposed: nat)
    requires ValidPolicy(p) && InLimits(p, c) && accepted <= proposed
    ensures var c' := Adapted(p, c, accepted, proposed);
            && InLimits(p, c') && c'.current >= 1 && (p.Fixed? || proposed == 0 ==> c' == c)
            && (proposed > 0 && p.AcceptanceRate? ==>
                  var rate := accepted as real / proposed as real;
                  && c'.smoothed == c.smoothed
                  && c'.current == if rate < p.decreaseBelow && c.current > p.minimum then c.current - 1
                                   else if rate > p.increaseAbove && c.current < p.maximum then c.current + 1
                                   else c.current)
            && (proposed > 0 && p.AcceptedLength? ==>
                  && c'.smoothed == p.smoothing * accepted as real + (1.0 - p.smoothing) * c.smoothed
                  && NearestAllowed(c'.smoothed + 1.0, c'.current, p.minimum, p.maximum))
  {
    hide Smoothed;
    if p.AcceptedLength? && proposed > 0 { SmoothedIsMean(p.smoothing, accepted, c.smoothed); }
  }

  lemma SmoothedIsMean(factor: real, accepted: nat, length: real)
    requires 0.0 < factor <= 1.0 && length >= 0.0
    ensures Smoothed(factor, accepted, length) == factor * accepted as real + (1.0 - factor) * length
  {
  }

  /** The count within the limits that is nearest to the value; the larger of two. */
  predicate NearestAllowed(x: real, n: nat, least: nat, most: nat) {
    && least <= n <= most
    && (n < most ==> x < n as real + 0.5) && (n > least ==> n as real - 0.5 <= x)
  }

  class DraftTokenCountController {
    const policy: Policy
    var current: nat
    var smoothedLength: real

    function Value(): Counts
      reads this
    {
      Counts(current, smoothedLength)
    }

    ghost predicate Valid()
      reads this
    {
      ValidPolicy(policy) && InLimits(policy, Value())
    }

    constructor (p: Policy)
      requires ValidPolicy(p)
      ensures Valid() && policy == p && fresh(this) && Value() == Initial(p)
      ensures current == match p case Fixed(n) => n case AcceptanceRate(n, _, _, _, _) => n case AcceptedLength(n, _, _, _) => n
      ensures p.AcceptedLength? ==> smoothedLength == (p.initial - 1) as real
    {
      policy := p;
      match p {
        case Fixed(n) =>
          current := n;
          smoothedLength := 0.0;
        case AcceptanceRate(n, _, _, _, _) =>
          current := n;
          smoothedLength := 0.0;
        case AcceptedLength(n, _, _, _) =>
          current := n;
          smoothedLength := (if n > 0 then n - 1 else 0) as real;
      }
    }

    /** Follows one verification, and refuses one that accepted more than was proposed. */
    method Update(accepted: nat, proposed: nat) returns (ok: bool)
      requires Valid()
      modifies this
      ensures Valid() && current >= 1 && (ok <==> accepted <= proposed) && (!ok ==> Value() == old(Value()))
      ensures ok ==> Value() == old(Adapted(policy, Value(), accepted, proposed))
    {
      if accepted > proposed { return false; }
      ok := true;
      if proposed == 0 { return; }
      match policy {
        case Fixed(_) =>
        case AcceptanceRate(_, low, high, least, most) =>
          var rate := accepted as real / proposed as real;
          if rate < low {
            current := Max(Max(current - 1, 0), least);
          } else if rate > high {
            current := Min(current + 1, most);
          }
        case AcceptedLength(_, smoothing, least, most) =>
          smoothedLength := Smoothed(smoothing, accepted, smoothedLength);
          current := Clamp(Rounded(smoothedLength) + 1, least, most);
      }
    }
  }

  lemma SmoothedStaysNonNegative(smoothing: real, accepted: nat, length: real)
    requires 0.0 < smoothing <= 1.0 && length >= 0.0
    ensures smoothing * accepted as real + (1.0 - smoothing) * length >= 0.0
  {
    assert smoothing * accepted as real >= 0.0;
    assert (1.0 - smoothing) * length >= 0.0;
  }
}
