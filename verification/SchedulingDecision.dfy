/** The next model batch: decodes first, one token each, then prefills in policy order until the token
    budget is spent, with a cursor that makes round-robin prefills take turns. */
module SchedulingDecision {
  import opened Common
  import opened SchedulerSpec

  function ScheduleDecodes(active: seq<Request>, budget: nat): seq<Grant>
    decreases |active|
  {
    if active == [] || budget == 0 then []
    else if active[0].phase.Decode? then [Grant(active[0].id, 1)] + ScheduleDecodes(active[1..], budget - 1)
    else ScheduleDecodes(active[1..], budget)
  }

  function Prefills(active: seq<Request>): seq<PrefillWork> {
    if active == [] then []
    else (match active[0].phase case Prefill(n) => [PrefillWork(active[0].id, n)] case Decode => []) + Prefills(active[1..])
  }

  function PositionOf(prefills: seq<PrefillWork>, id: RequestId): Option<nat>
    decreases |prefills|
  {
    if prefills == [] then None
    else if prefills[0].id == id then Some(0)
    else match PositionOf(prefills[1..], id) case None => None case Some(k) => Some(k + 1)
  }

  lemma {:induction false} PositionOfFound(prefills: seq<PrefillWork>, id: RequestId)
    ensures match PositionOf(prefills, id)
            case Some(k) => k < |prefills| && prefills[k].id == id && forall j :: 0 <= j < k ==> prefills[j].id != id
            case None => forall j :: 0 <= j < |prefills| ==> prefills[j].id != id
    decreases |prefills|
  {
    if prefills != [] {
      PositionOfFound(prefills[1..], id);
      assert forall j :: 0 < j < |prefills| ==> prefills[j] == prefills[1..][j - 1];
    }
  }

  function RotateAt<T>(s: seq<T>, k: nat): (r: seq<T>)
    requires k <= |s|
    ensures |r| == |s|
  {
    s[k..] + s[..k]
  }

  function Remaining(p: PrefillWork): nat { p.remaining }

  function OrderPrefills(policy: Policy, prefills: seq<PrefillWork>, next: Option<RequestId>): seq<PrefillWork> {
    match policy
    case FirstComeFirstServed => prefills
    case ShortestPrefillFirst => StableSort(prefills, Remaining)
    case RoundRobin =>
      if next == None then prefills
      else
        match PositionOf(prefills, next.value)
        case None => prefills
        case Some(k) => PositionOfFound(prefills, next.value); RotateAt(prefills, k)
  }

  function SchedulePrefills(prefills: seq<PrefillWork>, budget: nat): seq<Grant>
    decreases |prefills|
  {
    if prefills == [] || budget == 0 then []
    else
      var n := Min(prefills[0].remaining, budget);
      [Grant(prefills[0].id, n)] + SchedulePrefills(prefills[1..], budget - n)
  }

  /** Where the next round-robin turn starts: behind the last prefill that was scheduled. */
  function NextCursor(policy: Policy, ordered: seq<PrefillWork>, scheduled: seq<Grant>, next: Option<RequestId>): Option<RequestId> {
    if policy != RoundRobin then next
    else if ordered == [] then None
    else if scheduled == [] then next
    else
      match PositionOf(ordered, Last(scheduled).id)
      case None => next
      case Some(k) => Some(ordered[if k + 1 == |ordered| then 0 else (PositionOfFound(ordered, Last(scheduled).id); k + 1)].id)
  }

  function Decide(cfg: Config, s: State): (State, seq<Grant>) {
    var decodes := ScheduleDecodes(s.active, cfg.maxBatchedTokens);
    DecodesWithinBudget(s.active, cfg.maxBatchedTokens);
    var ordered := OrderPrefills(cfg.policy, Prefills(s.active), s.next);
    var prefills := SchedulePrefills(ordered, cfg.maxBatchedTokens - |decodes|);
    (s.(next := NextCursor(cfg.policy, ordered, prefills, s.next)), decodes + prefills)
  }

  // ---- Budgets --------------------------------------------------------------------------------

  function DecodeCount(active: seq<Request>): nat {
    if active == [] then 0 else (if active[0].phase.Decode? then 1 else 0) + DecodeCount(active[1..])
  }

  function TotalBudget(grants: seq<Grant>): nat {
    if grants == [] then 0 else grants[0].budget + TotalBudget(grants[1..])
  }

  function TotalRemaining(prefills: seq<PrefillWork>): nat {
    if prefills == [] then 0 else prefills[0].remaining + TotalRemaining(prefills[1..])
  }

  lemma {:induction false} DecodesWithinBudget(active: seq<Request>, budget: nat)
    ensures |ScheduleDecodes(active, budget)| == Min(budget, DecodeCount(active))
    ensures TotalBudget(ScheduleDecodes(active, budget)) == |ScheduleDecodes(active, budget)|
    decreases |active|
  {
    if active != [] && budget > 0 {
      DecodesWithinBudget(active[1..], if active[0].phase.Decode? then budget - 1 else budget);
    }
  }

  lemma {:induction false} PrefillsSpend(prefills: seq<PrefillWork>, budget: nat)
    ensures TotalBudget(SchedulePrefills(prefills, budget)) == Min(budget, TotalRemaining(prefills))
    decreases |prefills|
  {
    if prefills != [] && budget > 0 {
      PrefillsSpend(prefills[1..], budget - Min(prefills[0].remaining, budget));
    }
  }

  lemma {:induction false} TotalConcat(a: seq<Grant>, b: seq<Grant>)
    ensures TotalBudget(a + b) == TotalBudget(a) + TotalBudget(b)
    decreases |a|
  {
    if a == [] {
      assert a + b == b;
    } else {
      TotalConcat(a[1..], b);
      assert (a + b)[1..] == a[1..] + b;
    }
  }

  lemma {:induction false} RemainingConcat(a: seq<PrefillWork>, b: seq<PrefillWork>)
    ensures TotalRemaining(a + b) == TotalRemaining(a) + TotalRemaining(b)
    decreases |a|
  {
    if a == [] {
      assert a + b == b;
    } else {
      RemainingConcat(a[1..], b);
      assert (a + b)[1..] == a[1..] + b;
    }
  }

  lemma {:induction false} InsertRemaining(x: PrefillWork, s: seq<PrefillWork>)
    ensures TotalRemaining(InsertByKey(x, s, Remaining)) == x.remaining + TotalRemaining(s)
    decreases |s|
  {
    if s == [] || Remaining(x) <= Remaining(s[0]) {
      assert ([x] + s)[1..] == s;
    } else {
      InsertRemaining(x, s[1..]);
      var tail := InsertByKey(x, s[1..], Remaining);
      assert ([s[0]] + tail)[1..] == tail;
    }
  }

  lemma {:induction false} SortRemaining(s: seq<PrefillWork>)
    ensures TotalRemaining(StableSort(s, Remaining)) == TotalRemaining(s)
    decreases |s|
  {
    if s != [] {
      SortRemaining(s[1..]);
      InsertRemaining(s[0], StableSort(s[1..], Remaining));
    }
  }

  /** Ordering neither loses nor repeats prefills. */
  lemma OrderKeepsWork(policy: Policy, prefills: seq<PrefillWork>, next: Option<RequestId>)
    ensures multiset(OrderPrefills(policy, prefills, next)) == multiset(prefills)
    ensures TotalRemaining(OrderPrefills(policy, prefills, next)) == TotalRemaining(prefills)
  {
    match policy
    case FirstComeFirstServed =>
    case ShortestPrefillFirst =>
      SortExact(prefills, Remaining, 0);
      SortRemaining(prefills);
    case RoundRobin =>
      if next.Some? && PositionOf(prefills, next.value).Some? {
        PositionOfFound(prefills, next.value);
        var k := PositionOf(prefills, next.value).value;
        assert prefills == prefills[..k] + prefills[k..];
        RemainingConcat(prefills[..k], prefills[k..]);
        RemainingConcat(prefills[k..], prefills[..k]);
      }
  }

  /** The batch spends exactly the smaller of the token limit and the work there is: one token per
      decode plus every remaining prefill token. */
  lemma WorkConserving(cfg: Config, s: State)
    ensures TotalBudget(Decide(cfg, s).1) == Min(cfg.maxBatchedTokens, DecodeCount(s.active) + TotalRemaining(Prefills(s.active)))
  {
    hide ScheduleDecodes, SchedulePrefills, OrderPrefills, Prefills, NextCursor, DecodeCount, TotalBudget, TotalRemaining;
    var decodes := ScheduleDecodes(s.active, cfg.maxBatchedTokens);
    var ordered := OrderPrefills(cfg.policy, Prefills(s.active), s.next);
    DecodesWithinBudget(s.active, cfg.maxBatchedTokens);
    OrderKeepsWork(cfg.policy, Prefills(s.active), s.next);
    PrefillsSpend(ordered, cfg.maxBatchedTokens - |decodes|);
    TotalConcat(decodes, SchedulePrefills(ordered, cfg.maxBatchedTokens - |decodes|));
  }

  ghost predicate IsActiveIn(active: seq<Request>, id: RequestId, decode: bool) {
    exists i :: 0 <= i < |active| && active[i].id == id && active[i].phase.Decode? == decode
  }

  lemma {:induction false} DecodeGrants(active: seq<Request>, budget: nat)
    ensures forall g :: g in ScheduleDecodes(active, budget) ==> g.budget == 1 && IsActiveIn(active, g.id, true)
    ensures budget >= DecodeCount(active) ==>
              forall i :: 0 <= i < |active| && active[i].phase.Decode? ==> Grant(active[i].id, 1) in ScheduleDecodes(active, budget)
    decreases |active|
  {
    if active != [] && budget > 0 {
      var rest := active[1..];
      DecodeGrants(rest, if active[0].phase.Decode? then budget - 1 else budget);
      forall g | g in ScheduleDecodes(active, budget)
        ensures g.budget == 1 && IsActiveIn(active, g.id, true)
      {
        if g in ScheduleDecodes(rest, if active[0].phase.Decode? then budget - 1 else budget) {
          var i :| 0 <= i < |rest| && rest[i].id == g.id && rest[i].phase.Decode?;
          assert active[i + 1] == rest[i];
        }
      }
      assert forall i :: 0 < i < |active| ==> active[i] == rest[i - 1];
    } else if active != [] {
      assert budget == 0;
      if budget >= DecodeCount(active) { NoDecodes(active); }
    }
  }

  lemma {:induction false} NoDecodes(active: seq<Request>)
    requires DecodeCount(active) == 0
    ensures forall i :: 0 <= i < |active| ==> !active[i].phase.Decode?
    decreases |active|
  {
    if active != [] {
      NoDecodes(active[1..]);
      assert forall i :: 0 < i < |active| ==> active[i] == active[1..][i - 1];
    }
  }

  lemma {:induction false} PrefillGrants(prefills: seq<PrefillWork>, budget: nat)
    ensures |SchedulePrefills(prefills, budget)| <= |prefills|
    ensures forall i :: 0 <= i < |SchedulePrefills(prefills, budget)| ==>
              SchedulePrefills(prefills, budget)[i].id == prefills[i].id &&
              SchedulePrefills(prefills, budget)[i].budget <= prefills[i].remaining
    ensures SchedulePrefills(prefills, budget) != [] <==> budget > 0 && prefills != []
    decreases |prefills|
  {
    if prefills != [] && budget > 0 {
      PrefillGrants(prefills[1..], budget - Min(prefills[0].remaining, budget));
    }
  }

  lemma {:induction false} PrefillsAreActive(active: seq<Request>)
    ensures forall p :: p in Prefills(active) <==>
              exists i :: 0 <= i < |active| && active[i].phase == Prefill(p.remaining) && active[i].id == p.id
    decreases |active|
  {
    if active != [] {
      var rest := active[1..];
      PrefillsAreActive(rest);
      forall p
        ensures p in Prefills(active) <==>
                  exists i :: 0 <= i < |active| && active[i].phase == Prefill(p.remaining) && active[i].id == p.id
      {
        if i :| 0 <= i < |rest| && rest[i].phase == Prefill(p.remaining) && rest[i].id == p.id {
          assert active[i + 1] == rest[i];
        }
        if i :| 0 <= i < |active| && active[i].phase == Prefill(p.remaining) && active[i].id == p.id {
          if i > 0 { assert rest[i - 1] == active[i]; }
        }
      }
    }
  }

  /** Decodes get one token each; a prefill gets a grant only when every active decode has its token,
      and never more than it has left. */
  lemma DecodesBeforePrefills(cfg: Config, s: State)
    ensures var decodes := ScheduleDecodes(s.active, cfg.maxBatchedTokens);
            var grants := Decide(cfg, s).1;
            && |decodes| <= |grants| && grants[..|decodes|] == decodes
            && (forall g :: g in decodes ==> g.budget == 1 && IsActiveIn(s.active, g.id, true))
            && (|grants| > |decodes| ==>
                  forall i :: 0 <= i < |s.active| && s.active[i].phase.Decode? ==> Grant(s.active[i].id, 1) in decodes)
            && (forall j :: |decodes| <= j < |grants| ==> IsPrefillGrant(Prefills(s.active), grants[j]))
  {
    hide ScheduleDecodes, SchedulePrefills, OrderPrefills, Prefills, NextCursor, IsActiveIn, DecodeCount, IsPrefillGrant;
    var decodes := ScheduleDecodes(s.active, cfg.maxBatchedTokens);
    DecodesWithinBudget(s.active, cfg.maxBatchedTokens);
    var ordered := OrderPrefills(cfg.policy, Prefills(s.active), s.next);
    var prefills := SchedulePrefills(ordered, cfg.maxBatchedTokens - |decodes|);
    var grants := Decide(cfg, s).1;
    assert grants == decodes + prefills;
    if |grants| > |decodes| { PrefillsMeanAllDecodes(s.active, cfg.maxBatchedTokens, ordered); }
    DecodeGrants(s.active, cfg.maxBatchedTokens);
    forall j | |decodes| <= j < |grants| ensures IsPrefillGrant(Prefills(s.active), grants[j]) {
      assert grants[j] == prefills[j - |decodes|];
      OrderedGrant(cfg.policy, s, cfg.maxBatchedTokens - |decodes|, j - |decodes|);
    }
  }

  /** Some budget is left for prefills only when every decode has its token. */
  lemma PrefillsMeanAllDecodes(active: seq<Request>, budget: nat, ordered: seq<PrefillWork>)
    requires |ScheduleDecodes(active, budget)| <= budget
    requires SchedulePrefills(ordered, budget - |ScheduleDecodes(active, budget)|) != []
    ensures budget >= DecodeCount(active)
  {
    hide ScheduleDecodes, SchedulePrefills, DecodeCount;
    DecodesWithinBudget(active, budget);
    PrefillGrants(ordered, budget - |ScheduleDecodes(active, budget)|);
  }

  lemma OrderedGrant(policy: Policy, s: State, budget: nat, j: nat)
    requires j < |SchedulePrefills(OrderPrefills(policy, Prefills(s.active), s.next), budget)|
    ensures IsPrefillGrant(Prefills(s.active), SchedulePrefills(OrderPrefills(policy, Prefills(s.active), s.next), budget)[j])
  {
    hide SchedulePrefills, OrderPrefills, Prefills, IsPrefillGrant;
    var ordered := OrderPrefills(policy, Prefills(s.active), s.next);
    PrefillGrants(ordered, budget);
    OrderKeepsWork(policy, Prefills(s.active), s.next);
    GrantInOrder(ordered, Prefills(s.active), SchedulePrefills(ordered, budget)[j], j);
  }

  ghost predicate IsPrefillGrant(work: seq<PrefillWork>, g: Grant) {
    exists p :: p in work && p.id == g.id && g.budget <= p.remaining
  }

  lemma GrantInOrder(ordered: seq<PrefillWork>, work: seq<PrefillWork>, g: Grant, j: nat)
    requires multiset(ordered) == multiset(work) && j < |ordered| && g.id == ordered[j].id && g.budget <= ordered[j].remaining
    ensures IsPrefillGrant(work, g)
  {
    assert ordered[j] in multiset(ordered) && ordered[j] in multiset(work);
  }

  // ---- One grant each -------------------------------------------------------------------------

  ghost predicate IsActive(active: seq<Request>, id: RequestId) {
    exists i :: 0 <= i < |active| && active[i].id == id
  }

  ghost predicate OneEach(active: seq<Request>) {
    forall i, j :: 0 <= i < j < |active| ==> active[i].id != active[j].id
  }

  lemma {:induction false} OneDecodeEach(active: seq<Request>, budget: nat)
    requires OneEach(active)
    ensures forall i, j :: 0 <= i < j < |ScheduleDecodes(active, budget)| ==>
              ScheduleDecodes(active, budget)[i].id != ScheduleDecodes(active, budget)[j].id
    decreases |active|
  {
    if active != [] && budget > 0 {
      var rest := active[1..];
      assert OneEach(rest) by { forall i, j | 0 <= i < j < |rest| ensures rest[i].id != rest[j].id { assert rest[i] == active[i + 1]; } }
      var left := if active[0].phase.Decode? then budget - 1 else budget;
      OneDecodeEach(rest, left);
      DecodeGrants(rest, left);
      forall k | 0 <= k < |ScheduleDecodes(rest, left)| ensures ScheduleDecodes(rest, left)[k].id != active[0].id {
        var g := ScheduleDecodes(rest, left)[k];
        assert g in ScheduleDecodes(rest, left) && IsActiveIn(rest, g.id, true);
        var i :| 0 <= i < |rest| && rest[i].id == g.id;
        assert rest[i] == active[i + 1];
      }
    }
  }

  lemma {:induction false} OnePrefillEach(active: seq<Request>)
    requires OneEach(active)
    ensures forall i, j :: 0 <= i < j < |Prefills(active)| ==> Prefills(active)[i].id != Prefills(active)[j].id
    decreases |active|
  {
    if active != [] {
      var rest := active[1..];
      assert OneEach(rest) by { forall i, j | 0 <= i < j < |rest| ensures rest[i].id != rest[j].id { assert rest[i] == active[i + 1]; } }
      OnePrefillEach(rest);
      PrefillsAreActive(rest);
      forall k | 0 <= k < |Prefills(rest)| ensures Prefills(rest)[k].id != active[0].id {
        assert Prefills(rest)[k] in Prefills(rest);
        var i :| 0 <= i < |rest| && rest[i].id == Prefills(rest)[k].id;
        assert rest[i] == active[i + 1];
      }
    }
  }

  lemma TwiceCounts(x: seq<PrefillWork>, i: nat, j: nat)
    requires i < j < |x| && x[i] == x[j]
    ensures multiset(x)[x[i]] >= 2
  {
    assert x == x[..j] + x[j..] && x[..j][i] == x[i] && x[j..][0] == x[j];
    assert x[i] in x[..j] && x[i] in x[j..];
    assert multiset(x) == multiset(x[..j]) + multiset(x[j..]);
  }

  lemma OnceCounts(y: seq<PrefillWork>, k: nat)
    requires k < |y| && forall i, j :: 0 <= i < j < |y| ==> y[i].id != y[j].id
    ensures multiset(y)[y[k]] == 1
  {
    assert y == y[..k] + [y[k]] + y[k + 1..];
    assert y[k] !in y[..k] && y[k] !in y[k + 1..];
    assert multiset(y) == multiset(y[..k]) + multiset{y[k]} + multiset(y[k + 1..]);
  }

  /** Reordering work of distinct requests keeps them distinct. */
  lemma ReorderedDistinct(x: seq<PrefillWork>, y: seq<PrefillWork>)
    requires multiset(x) == multiset(y) && forall i, j :: 0 <= i < j < |y| ==> y[i].id != y[j].id
    ensures forall i, j :: 0 <= i < j < |x| ==> x[i].id != x[j].id
  {
    forall i, j | 0 <= i < j < |x| ensures x[i].id != x[j].id {
      assert x[i] in multiset(x) && x[j] in multiset(x) && x[i] in multiset(y) && x[j] in multiset(y);
      var a :| 0 <= a < |y| && y[a] == x[i];
      OnceCounts(y, a);
      if x[i] == x[j] { TwiceCounts(x, i, j); }
      var b :| 0 <= b < |y| && y[b] == x[j];
      assert a != b;
    }
  }

  /** Every grant goes to an active request, and no request gets two. */
  lemma OneGrantEach(cfg: Config, s: State)
    requires OneEach(s.active)
    ensures var grants := Decide(cfg, s).1;
            && (forall i, j :: 0 <= i < j < |grants| ==> grants[i].id != grants[j].id)
            && (forall i :: 0 <= i < |grants| ==> IsActive(s.active, grants[i].id))
  {
    hide ScheduleDecodes, SchedulePrefills, OrderPrefills, Prefills, NextCursor, DecodeCount, IsActive, IsActiveIn, OneEach;
    var decodes := ScheduleDecodes(s.active, cfg.maxBatchedTokens);
    var work := Prefills(s.active);
    var ordered := OrderPrefills(cfg.policy, work, s.next);
    DecodesWithinBudget(s.active, cfg.maxBatchedTokens);
    OneDecodeEach(s.active, cfg.maxBatchedTokens);
    DecodeGrants(s.active, cfg.maxBatchedTokens);
    OnePrefillEach(s.active);
    OrderKeepsWork(cfg.policy, work, s.next);
    ReorderedDistinct(ordered, work);
    PrefillGrants(ordered, cfg.maxBatchedTokens - |decodes|);
    var prefills := SchedulePrefills(ordered, cfg.maxBatchedTokens - |decodes|);
    forall j | 0 <= j < |prefills| ensures IsActiveIn(s.active, prefills[j].id, false) {
      assert ordered[j] in multiset(ordered) && ordered[j] in multiset(work);
      PrefillIsActive(s.active, ordered[j]);
    }
    GrantsApart(s.active, decodes, prefills);
  }

  lemma PrefillIsActive(active: seq<Request>, p: PrefillWork)
    requires p in Prefills(active)
    ensures IsActiveIn(active, p.id, false)
  {
    hide Prefills;
    PrefillsAreActive(active);
    var k :| 0 <= k < |active| && active[k].phase == Prefill(p.remaining) && active[k].id == p.id;
  }

  lemma GrantsApart(active: seq<Request>, decodes: seq<Grant>, prefills: seq<Grant>)
    requires OneEach(active)
    requires forall g :: g in decodes ==> IsActiveIn(active, g.id, true)
    requires forall j :: 0 <= j < |prefills| ==> IsActiveIn(active, prefills[j].id, false)
    requires forall i, j :: 0 <= i < j < |decodes| ==> decodes[i].id != decodes[j].id
    requires forall i, j :: 0 <= i < j < |prefills| ==> prefills[i].id != prefills[j].id
    ensures var grants := decodes + prefills;
            && (forall i, j :: 0 <= i < j < |grants| ==> grants[i].id != grants[j].id)
            && (forall i :: 0 <= i < |grants| ==> IsActive(active, grants[i].id))
  {
    hide IsActiveIn, IsActive, OneEach;
    var grants := decodes + prefills;
    forall i | 0 <= i < |grants| ensures IsActive(active, grants[i].id) {
      GrantIsActiveIn(active, decodes, prefills, i);
      ActiveInIsActive(active, grants[i].id, i < |decodes|);
    }
    forall i, j | 0 <= i < j < |grants| ensures grants[i].id != grants[j].id {
      if j < |decodes| {
        assert grants[i] == decodes[i] && grants[j] == decodes[j];
      } else if i >= |decodes| {
        assert grants[i] == prefills[i - |decodes|] && grants[j] == prefills[j - |decodes|];
      } else {
        GrantIsActiveIn(active, decodes, prefills, i);
        GrantIsActiveIn(active, decodes, prefills, j);
        PhasesApart(active, grants[i].id, grants[j].id);
      }
    }
  }

  lemma GrantIsActiveIn(active: seq<Request>, decodes: seq<Grant>, prefills: seq<Grant>, i: nat)
    requires i < |decodes + prefills|
    requires forall g :: g in decodes ==> IsActiveIn(active, g.id, true)
    requires forall j :: 0 <= j < |prefills| ==> IsActiveIn(active, prefills[j].id, false)
    ensures IsActiveIn(active, (decodes + prefills)[i].id, i < |decodes|)
  {
    hide IsActiveIn;
    if i < |decodes| {
      assert (decodes + prefills)[i] == decodes[i] && decodes[i] in decodes;
    } else {
      assert (decodes + prefills)[i] == prefills[i - |decodes|];
    }
  }

  lemma ActiveInIsActive(active: seq<Request>, id: RequestId, decode: bool)
    requires IsActiveIn(active, id, decode)
    ensures IsActive(active, id)
  {
  }

  /** A request is in one phase only. */
  lemma PhasesApart(active: seq<Request>, a: RequestId, b: RequestId)
    requires OneEach(active) && IsActiveIn(active, a, true) && IsActiveIn(active, b, false)
    ensures a != b
  {
    var i :| 0 <= i < |active| && active[i].id == a && active[i].phase.Decode? == true;
    var j :| 0 <= j < |active| && active[j].id == b && active[j].phase.Decode? == false;
    if i < j { assert active[i].id != active[j].id; } else { assert j < i && active[j].id != active[i].id; }
  }

  // ---- Round-robin fairness -------------------------------------------------------------------

  /** One decision's prefills and the budget left for them. */
  datatype Round = Round(prefills: seq<PrefillWork>, budget: nat)

  function WorkIds(prefills: seq<PrefillWork>): (ids: seq<RequestId>)
    ensures |ids| == |prefills| && forall i :: 0 <= i < |prefills| ==> ids[i] == prefills[i].id
  {
    seq(|prefills|, i requires 0 <= i < |prefills| => prefills[i].id)
  }

  function RoundOrder(r: Round, cursor: Option<RequestId>): seq<PrefillWork> { OrderPrefills(RoundRobin, r.prefills, cursor) }

  function RoundGrants(r: Round, cursor: Option<RequestId>): seq<Grant> { SchedulePrefills(RoundOrder(r, cursor), r.budget) }

  /** A stretch of decisions over a fixed list of active prefills, each with some prefill budget. */
  ghost predicate IsTurnTaking(ids: seq<RequestId>, rounds: seq<Round>, cursors: seq<Option<RequestId>>) {
    && Distinct(ids) && |cursors| == |rounds| + 1
    && forall k :: 0 <= k < |rounds| ==> TurnTaken(ids, rounds, cursors, k)
  }

  ghost predicate TurnTaken(ids: seq<RequestId>, rounds: seq<Round>, cursors: seq<Option<RequestId>>, k: nat)
    requires |cursors| == |rounds| + 1 && k < |rounds|
  {
    && WorkIds(rounds[k].prefills) == ids && rounds[k].budget > 0
    && cursors[k + 1] == NextCursor(RoundRobin, RoundOrder(rounds[k], cursors[k]), RoundGrants(rounds[k], cursors[k]), cursors[k])
  }

  ghost predicate Granted(r: Round, cursor: Option<RequestId>, id: RequestId) {
    exists i :: 0 <= i < |RoundGrants(r, cursor)| && RoundGrants(r, cursor)[i].id == id
  }

  /** The place in the list where a turn starts. */
  function StartOf(prefills: seq<PrefillWork>, cursor: Option<RequestId>): (k: nat)
    ensures k <= |prefills| && (prefills != [] ==> k < |prefills|)
  {
    if cursor == None then 0
    else match PositionOf(prefills, cursor.value) case None => 0 case Some(k) => (PositionOfFound(prefills, cursor.value); k)
  }

  lemma OrderIsRotation(r: Round, cursor: Option<RequestId>)
    ensures RoundOrder(r, cursor) == RotateAt(r.prefills, StartOf(r.prefills, cursor))
  {
    assert RotateAt(r.prefills, 0) == r.prefills;
  }

  lemma StartDependsOnIds(a: seq<PrefillWork>, b: seq<PrefillWork>, cursor: Option<RequestId>)
    requires WorkIds(a) == WorkIds(b)
    ensures StartOf(a, cursor) == StartOf(b, cursor)
  {
    if cursor.Some? {
      PositionOfFound(a, cursor.value);
      PositionOfFound(b, cursor.value);
      assert forall i :: 0 <= i < |a| ==> a[i].id == WorkIds(a)[i] && b[i].id == WorkIds(b)[i];
    }
  }

  /** In one decision, either the prefill at distance d from the cursor gets a grant, or the cursor moves
      at least one and at most d places towards it. */
  lemma TurnApproaches(ids: seq<RequestId>, r: Round, cursor: Option<RequestId>, d: nat)
    requires Distinct(ids) && WorkIds(r.prefills) == ids && r.budget > 0 && d < |ids|
    ensures var next := NextCursor(RoundRobin, RoundOrder(r, cursor), RoundGrants(r, cursor), cursor);
            var start, start' := StartOf(r.prefills, cursor), StartOf(r.prefills, next);
            Granted(r, cursor, RotateAt(ids, start)[d]) ||
            exists d' :: 0 <= d' < d && RotateAt(ids, start')[d'] == RotateAt(ids, start)[d]
  {
    hide NextCursor, OrderPrefills, SchedulePrefills, StartOf, RotateAt, RoundOrder, Distinct;
    var start := StartOf(r.prefills, cursor);
    var ordered := RoundOrder(r, cursor);
    var grants := RoundGrants(r, cursor);
    OrderIsRotation(r, cursor);
    PrefillGrants(ordered, r.budget);
    OrderedIds(r.prefills, ids, start);
    if d < |grants| {
      assert grants[d].id == RotateAt(ids, start)[d];
    } else {
      LastGrantPosition(ids, ordered, grants, start);
      var place := RotateAgain(ids, start, |grants|, d);
      CursorPlace(r.prefills, ids, place);
    }
  }

  lemma OrderedIds(prefills: seq<PrefillWork>, ids: seq<RequestId>, start: nat)
    requires WorkIds(prefills) == ids && start <= |ids|
    ensures forall i :: 0 <= i < |ids| ==> RotateAt(prefills, start)[i].id == RotateAt(ids, start)[i]
  {
  }

  lemma RotateAgain(ids: seq<RequestId>, start: nat, m: nat, d: nat) returns (place: nat)
    requires start < |ids| && m <= d < |ids|
    ensures place < |ids| && RotateAt(ids, start)[m] == ids[place] && RotateAt(ids, place)[d - m] == RotateAt(ids, start)[d]
  {
    place := if start + m < |ids| then start + m else start + m - |ids|;
  }

  lemma CursorPlace(prefills: seq<PrefillWork>, ids: seq<RequestId>, place: nat)
    requires Distinct(ids) && WorkIds(prefills) == ids && place < |ids|
    ensures StartOf(prefills, Some(ids[place])) == place
  {
    PositionOfFound(prefills, ids[place]);
    assert prefills[place].id == ids[place];
    forall j | 0 <= j < |ids| && prefills[j].id == ids[place] ensures j == place { assert ids[j] == ids[place]; }
  }

  lemma LastGrantPosition(ids: seq<RequestId>, ordered: seq<PrefillWork>, grants: seq<Grant>, start: nat)
    requires Distinct(ids) && start < |ids| && |ordered| == |ids| && 0 < |grants| < |ordered|
    requires forall i :: 0 <= i < |ids| ==> ordered[i].id == RotateAt(ids, start)[i]
    requires forall i :: 0 <= i < |grants| ==> grants[i].id == ordered[i].id
    ensures NextCursor(RoundRobin, ordered, grants, None) == Some(ordered[|grants|].id)
    ensures forall c :: NextCursor(RoundRobin, ordered, grants, c) == Some(ordered[|grants|].id)
  {
    var last := Last(grants).id;
    PositionOfFound(ordered, last);
    assert last == ordered[|grants| - 1].id;
    forall i, j | 0 <= i < j < |ids| ensures ordered[i].id != ordered[j].id {
      var a := if start + i < |ids| then start + i else start + i - |ids|;
      var b := if start + j < |ids| then start + j else start + j - |ids|;
      assert ordered[i].id == ids[a] && ordered[j].id == ids[b] && a != b;
    }
  }

  /** Every active prefill is scheduled within as many decisions as there are active prefills. */
  lemma RoundRobinIsFair(ids: seq<RequestId>, rounds: seq<Round>, cursors: seq<Option<RequestId>>, id: RequestId)
    requires IsTurnTaking(ids, rounds, cursors) && |rounds| >= |ids| && id in ids
    ensures exists k :: 0 <= k < |ids| && Granted(rounds[k], cursors[k], id)
  {
    assert TurnTaken(ids, rounds, cursors, 0);
    var start := StartOf(rounds[0].prefills, cursors[0]);
    var i :| 0 <= i < |ids| && ids[i] == id;
    var d := if i >= start then i - start else i - start + |ids|;
    assert RotateAt(ids, start)[d] == id;
    var k := TurnComes(ids, rounds, cursors, id, 0, d);
  }

  lemma {:induction false} TurnComes(ids: seq<RequestId>, rounds: seq<Round>, cursors: seq<Option<RequestId>>, id: RequestId,
                                     k: nat, d: nat) returns (turn: nat)
    requires IsTurnTaking(ids, rounds, cursors) && d < |ids| && k + d < |ids| <= |rounds|
    requires TurnTaken(ids, rounds, cursors, k) && RotateAt(ids, StartOf(rounds[k].prefills, cursors[k]))[d] == id
    ensures k <= turn <= k + d && Granted(rounds[turn], cursors[turn], id)
    decreases d
  {
    assert TurnTaken(ids, rounds, cursors, k);
    TurnApproaches(ids, rounds[k], cursors[k], d);
    if Granted(rounds[k], cursors[k], id) {
      turn := k;
    } else {
      var start' := StartOf(rounds[k].prefills, cursors[k + 1]);
      var d' :| 0 <= d' < d && RotateAt(ids, start')[d'] == id;
      assert TurnTaken(ids, rounds, cursors, k + 1);
      StartDependsOnIds(rounds[k].prefills, rounds[k + 1].prefills, cursors[k + 1]);
      turn := TurnComes(ids, rounds, cursors, id, k + 1, d');
    }
  }
}
