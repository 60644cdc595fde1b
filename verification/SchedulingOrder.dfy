/** In which order a scheduling decision grants tokens, and how many to each: decodes first, in the order of
    the active requests; then prefills in the order of the policy, each whatever it has left until the
    budget runs out. */
module SchedulingOrder {
  import opened Common
  import opened SchedulerSpec
  import opened SchedulingDecision

  /** Where the round-robin turns start: at the cursor, if it is an active prefill, and else at the front. */
  function TurnStart(active: seq<Request>, next: Option<RequestId>): (k: nat) {
    match next
    case None => 0
    case Some(id) =>
      match Position(active, id)
      case None => 0
      case Some(k) => PositionFound(active, id, 0); if active[k].phase.Prefill? then k else 0
  }

  /** Whether the active request at place i is to get its tokens before the one at place j. */
  predicate Sooner(policy: Policy, active: seq<Request>, next: Option<RequestId>, i: nat, j: nat)
    requires i < |active| && j < |active|
  {
    match active[i].phase
    case Decode => active[j].phase.Prefill? || i < j
    case Prefill(a) =>
      match active[j].phase
      case Decode => false
      case Prefill(b) =>
        match policy
        case FirstComeFirstServed => i < j
        case ShortestPrefillFirst => a < b || (a == b && i < j)
        case RoundRobin => TurnBefore(TurnStart(active, next), i, j)
  }

  /** Turns go from the start to the end and on from the front. */
  predicate TurnBefore(start: nat, i: nat, j: nat) {
    if i >= start && j < start then true else if i < start && j >= start then false else i < j
  }

  /** The tokens an active request can use in one decision. */
  function Need(r: Request): nat {
    match r.phase
    case Decode => 1
    case Prefill(n) => n
  }

  ghost predicate GrantAt(active: seq<Request>, g: Grant, i: nat) { i < |active| && active[i].id == g.id }

  // ---- Decodes ------------------------------------------------------------------------------------

  /** The places from `from` on of the requests in one phase. */
  function Places(active: seq<Request>, decode: bool, from: nat): seq<nat>
    requires from <= |active|
    decreases |active| - from
  {
    if from == |active| then [] else (if active[from].phase.Decode? == decode then [from] else []) + Places(active, decode, from + 1)
  }

  lemma {:induction false} PlacesExact(active: seq<Request>, decode: bool, from: nat)
    requires from <= |active|
    ensures var places := Places(active, decode, from);
            && (forall a :: 0 <= a < |places| ==> from <= places[a] < |active| && active[places[a]].phase.Decode? == decode)
            && (forall a, b :: 0 <= a < b < |places| ==> places[a] < places[b])
            && (forall i :: from <= i < |active| && active[i].phase.Decode? == decode ==> i in places)
    decreases |active| - from
  {
    if from < |active| {
      PlacesExact(active, decode, from + 1);
      PlacesStep(Places(active, decode, from + 1), Places(active, decode, from), active, decode, from);
    }
  }

  lemma PlacesStep(rest: seq<nat>, places: seq<nat>, active: seq<Request>, decode: bool, from: nat)
    requires from < |active| && places == (if active[from].phase.Decode? == decode then [from] else []) + rest
    requires forall a :: 0 <= a < |rest| ==> from < rest[a] < |active| && active[rest[a]].phase.Decode? == decode
    requires forall a, b :: 0 <= a < b < |rest| ==> rest[a] < rest[b]
    requires forall i :: from < i < |active| && active[i].phase.Decode? == decode ==> i in rest
    ensures forall a :: 0 <= a < |places| ==> from <= places[a] < |active| && active[places[a]].phase.Decode? == decode
    ensures forall a, b :: 0 <= a < b < |places| ==> places[a] < places[b]
    ensures forall i :: from <= i < |active| && active[i].phase.Decode? == decode ==> i in places
  {
    var n := |places| - |rest|;
    assert forall a :: n <= a < |places| ==> places[a] == rest[a - n];
  }

  /** The first decoding requests get one token each, as far as the budget goes. */
  lemma {:induction false} DecodesAtPlaces(active: seq<Request>, from: nat, budget: nat)
    requires from <= |active|
    ensures var (grants, places) := (ScheduleDecodes(active[from..], budget), Places(active, true, from));
            && |grants| == Min(budget, |places|)
            && forall a :: 0 <= a < |grants| ==> places[a] < |active| && grants[a] == Grant(active[places[a]].id, 1)
    decreases |active| - from
  {
    if from < |active| && budget > 0 {
      assert active[from..][1..] == active[from + 1..];
      DecodesAtPlaces(active, from + 1, if active[from].phase.Decode? then budget - 1 else budget);
    }
  }

  // ---- Prefills -----------------------------------------------------------------------------------

  /** The work at a place. */
  predicate WorkAt(active: seq<Request>, w: PrefillWork, i: nat) {
    i < |active| && active[i].id == w.id && active[i].phase == Prefill(w.remaining)
  }

  lemma {:induction false} PrefillsAtPlaces(active: seq<Request>, from: nat)
    requires from <= |active|
    ensures var (work, places) := (Prefills(active[from..]), Places(active, false, from));
            |work| == |places| && forall a :: 0 <= a < |work| ==> WorkAt(active, work[a], places[a])
    decreases |active| - from
  {
    if from < |active| {
      assert active[from..][1..] == active[from + 1..];
      PrefillsAtPlaces(active, from + 1);
    }
  }

  /** Of two prefills in policy order the first goes sooner. */
  lemma OrderedSooner(policy: Policy, active: seq<Request>, next: Option<RequestId>, a: nat, b: nat) returns (i: nat, j: nat)
    requires OneEach(active) && a < b < |OrderPrefills(policy, Prefills(active), next)|
    ensures var ordered := OrderPrefills(policy, Prefills(active), next);
            WorkAt(active, ordered[a], i) && WorkAt(active, ordered[b], j) && Sooner(policy, active, next, i, j)
  {
    hide Places, Prefills, StableSort, Position, PositionOf;
    var (work, places) := (Prefills(active), Places(active, false, 0));
    assert active[0..] == active;
    PrefillsAtPlaces(active, 0);
    PlacesExact(active, false, 0);
    match policy
    case FirstComeFirstServed => i, j := places[a], places[b];
    case ShortestPrefillFirst =>
      var c, d := SortedFrom(work, Remaining, a, b);
      i, j := places[c], places[d];
    case RoundRobin => i, j := RotatedSooner(active, next, a, b);
  }

  lemma RotatedSooner(active: seq<Request>, next: Option<RequestId>, a: nat, b: nat) returns (i: nat, j: nat)
    requires OneEach(active) && a < b < |OrderPrefills(RoundRobin, Prefills(active), next)|
    ensures var ordered := OrderPrefills(RoundRobin, Prefills(active), next);
            WorkAt(active, ordered[a], i) && WorkAt(active, ordered[b], j) && Sooner(RoundRobin, active, next, i, j)
  {
    var k := StartPlace(active, next);
    hide Places, Prefills, OrderPrefills, TurnStart;
    var (work, places) := (Prefills(active), Places(active, false, 0));
    var c, d := RotatedPlace(|work|, k, a), RotatedPlace(|work|, k, b);
    assert active[0..] == active;
    PrefillsAtPlaces(active, 0);
    PlacesExact(active, false, 0);
    assert RotateAt(work, k)[a] == work[c] && RotateAt(work, k)[b] == work[d];
    i, j := places[c], places[d];
    TurnsAtPlaces(places, k, TurnStart(active, next), c, d);
  }

  /** The place before the rotation of the element at place a after it. */
  function RotatedPlace(n: nat, k: nat, a: nat): (c: nat)
    requires k <= n && a < n
    ensures c < n && (c >= k <==> a < n - k)
  {
    if a + k < n then a + k else a + k - n
  }

  lemma TurnsAtPlaces(places: seq<nat>, k: nat, start: nat, c: nat, d: nat)
    requires k <= |places| && c < |places| && d < |places| && TurnBefore(k, c, d)
    requires forall a, b :: 0 <= a < b < |places| ==> places[a] < places[b]
    requires (forall a :: 0 <= a < k ==> places[a] < start) && (forall a :: k <= a < |places| ==> places[a] >= start)
    ensures TurnBefore(start, places[c], places[d])
  {
  }

  /** The rotation starts at the first prefill from the start of the turns on. */
  lemma StartPlace(active: seq<Request>, next: Option<RequestId>) returns (k: nat)
    requires OneEach(active)
    ensures var (work, places) := (Prefills(active), Places(active, false, 0));
            && k <= |work| == |places| && OrderPrefills(RoundRobin, work, next) == RotateAt(work, k)
            && (forall a :: 0 <= a < k ==> places[a] < TurnStart(active, next))
            && (forall a :: k <= a < |places| ==> places[a] >= TurnStart(active, next))
  {
    hide Places, Prefills, PositionOf, Position;
    var (work, places) := (Prefills(active), Places(active, false, 0));
    assert active[0..] == active;
    PrefillsAtPlaces(active, 0);
    PlacesExact(active, false, 0);
    k := 0;
    assert RotateAt(work, 0) == work;
    if next.Some? {
      PositionOfFound(work, next.value);
      if PositionOf(work, next.value).Some? {
        k := PositionOf(work, next.value).value;
        assert WorkAt(active, work[k], places[k]);
        StartsAt(active, next.value, places[k]);
      } else {
        StartsAtFront(active, next.value);
      }
    }
  }

  lemma StartsAt(active: seq<Request>, id: RequestId, i: nat)
    requires OneEach(active) && i < |active| && active[i].id == id && active[i].phase.Prefill?
    ensures TurnStart(active, Some(id)) == i
  {
    PositionFound(active, id, 0);
    hide Position;
  }

  lemma StartsAtFront(active: seq<Request>, id: RequestId)
    requires forall k :: 0 <= k < |Prefills(active)| ==> Prefills(active)[k].id != id
    ensures TurnStart(active, Some(id)) == 0
  {
    hide Places, Prefills;
    PositionFound(active, id, 0);
    if Position(active, id).Some? && active[Position(active, id).value].phase.Prefill? { HasWork(active, Position(active, id).value); }
  }

  lemma HasWork(active: seq<Request>, i: nat)
    requires i < |active| && active[i].phase.Prefill?
    ensures exists k :: 0 <= k < |Prefills(active)| && Prefills(active)[k].id == active[i].id
  {
    hide Places, Prefills;
    var places := Places(active, false, 0);
    assert active[0..] == active;
    PrefillsAtPlaces(active, 0);
    PlacesExact(active, false, 0);
    var a :| 0 <= a < |places| && places[a] == i;
    assert WorkAt(active, Prefills(active)[a], places[a]);
  }

  /** Every prefill but the last that is scheduled gets all it has left. */
  lemma {:induction false} PrefillAmounts(prefills: seq<PrefillWork>, budget: nat)
    ensures var grants := SchedulePrefills(prefills, budget);
            && |grants| <= |prefills|
            && (forall a :: 0 <= a < |grants| ==> grants[a].id == prefills[a].id && grants[a].budget <= prefills[a].remaining)
            && (forall a :: 0 <= a < |grants| - 1 ==> grants[a].budget == prefills[a].remaining)
    decreases |prefills|
  {
    if prefills != [] && budget > 0 { PrefillAmounts(prefills[1..], budget - Min(prefills[0].remaining, budget)); }
  }

  // ---- The decision -------------------------------------------------------------------------------

  /** The places of the granted requests, in order; those left out come after all of them. */
  ghost predicate InOrder(policy: Policy, active: seq<Request>, next: Option<RequestId>, grants: seq<Grant>, places: seq<nat>) {
    && |places| == |grants|
    && (forall a :: 0 <= a < |grants| ==> GrantAt(active, grants[a], places[a]) && grants[a].budget <= Need(active[places[a]]))
    && (forall a :: 0 <= a < |grants| - 1 ==> grants[a].budget == Need(active[places[a]]))
    && (forall a, b :: 0 <= a < b < |grants| ==> Sooner(policy, active, next, places[a], places[b]))
    && (forall a, j :: 0 <= a < |grants| && 0 <= j < |active| && j !in places ==> Sooner(policy, active, next, places[a], j))
  }

  /** A decision grants in order: decodes before prefills, prefills in the order of the policy, everybody but
      the last all he can use, and nobody before one that is left out. */
  lemma DecisionInOrder(cfg: Config, s: State) returns (places: seq<nat>)
    requires OneEach(s.active)
    ensures InOrder(cfg.policy, s.active, s.next, Decide(cfg, s).1, places)
  {
    hide ScheduleDecodes, SchedulePrefills, OrderPrefills, Prefills, NextCursor, DecodeCount, Sooner, TurnStart;
    var decodes := ScheduleDecodes(s.active, cfg.maxBatchedTokens);
    DecodesWithinBudget(s.active, cfg.maxBatchedTokens);
    var ordered := OrderPrefills(cfg.policy, Prefills(s.active), s.next);
    var budget := cfg.maxBatchedTokens - |decodes|;
    var prefills := SchedulePrefills(ordered, budget);
    var first := DecodePart(cfg, s);
    var second := PrefillPart(cfg, s, budget);
    places := first + second;
    DecodesFirst(cfg, s, first, second, budget);
  }

  /** The decodes' part: the first ones, and all of them if the budget allows. */
  ghost predicate DecodesPlaced(active: seq<Request>, decodes: seq<Grant>, places: seq<nat>, budget: nat) {
    && |places| == |decodes| <= budget
    && (forall a :: 0 <= a < |decodes| ==> places[a] < |active| && active[places[a]].phase.Decode? && decodes[a] == Grant(active[places[a]].id, 1))
    && (forall a, b :: 0 <= a < b < |decodes| ==> places[a] < places[b])
    && (forall a, j :: 0 <= a < |decodes| && 0 <= j < |active| && active[j].phase.Decode? && j !in places ==> places[a] < j)
    && (|decodes| < budget ==> forall j :: 0 <= j < |active| && active[j].phase.Decode? ==> j in places)
  }

  lemma DecodePart(cfg: Config, s: State) returns (places: seq<nat>)
    ensures DecodesPlaced(s.active, ScheduleDecodes(s.active, cfg.maxBatchedTokens), places, cfg.maxBatchedTokens)
  {
    hide ScheduleDecodes, Places;
    assert s.active[0..] == s.active;
    DecodesAtPlaces(s.active, 0, cfg.maxBatchedTokens);
    PlacesExact(s.active, true, 0);
    var (decodes, all) := (ScheduleDecodes(s.active, cfg.maxBatchedTokens), Places(s.active, true, 0));
    places := all[..|decodes|];
    forall a, j | 0 <= a < |decodes| && 0 <= j < |s.active| && s.active[j].phase.Decode? && j !in places ensures places[a] < j {
      LaterPlace(all, |decodes|, a, j);
    }
    if |decodes| < cfg.maxBatchedTokens { assert places == all; }
  }

  lemma LaterPlace(all: seq<nat>, n: nat, a: nat, j: nat)
    requires forall a, b :: 0 <= a < b < |all| ==> all[a] < all[b]
    requires a < n <= |all| && j in all && j !in all[..n]
    ensures all[a] < j
  {
    var b :| 0 <= b < |all| && all[b] == j;
    assert forall c :: 0 <= c < n ==> all[..n][c] == all[c] != j;
  }

  /** The prefills' part, in the order of the policy. */
  ghost predicate PrefillsPlaced(policy: Policy, active: seq<Request>, next: Option<RequestId>, prefills: seq<Grant>, places: seq<nat>) {
    && |places| == |prefills|
    && (forall a :: 0 <= a < |prefills| ==> PrefillPlaced(active, prefills[a], places[a], a < |prefills| - 1))
    && (forall a, b :: 0 <= a < b < |prefills| ==> Sooner(policy, active, next, places[a], places[b]))
    && (forall a, j :: 0 <= a < |prefills| && 0 <= j < |active| && active[j].phase.Prefill? && j !in places ==>
          Sooner(policy, active, next, places[a], j))
  }

  ghost predicate PrefillPlaced(active: seq<Request>, g: Grant, i: nat, full: bool) {
    i < |active| && active[i].phase.Prefill? && active[i].id == g.id && g.budget <= Need(active[i]) && (full ==> g.budget == Need(active[i]))
  }

  /** The place of the work at position a of the ordered prefills. */
  lemma OrderedPlace(policy: Policy, active: seq<Request>, next: Option<RequestId>, a: nat) returns (i: nat)
    requires a < |OrderPrefills(policy, Prefills(active), next)|
    ensures WorkAt(active, OrderPrefills(policy, Prefills(active), next)[a], i)
  {
    hide Places, Prefills, OrderPrefills;
    var ordered := OrderPrefills(policy, Prefills(active), next);
    OrderKeepsWork(policy, Prefills(active), next);
    PrefillsAreActive(active);
    assert ordered[a] in multiset(ordered) && ordered[a] in Prefills(active);
    i :| 0 <= i < |active| && active[i].phase == Prefill(ordered[a].remaining) && active[i].id == ordered[a].id;
  }

  lemma {:induction false} OrderedPlaces(policy: Policy, active: seq<Request>, next: Option<RequestId>, n: nat) returns (places: seq<nat>)
    requires n <= |OrderPrefills(policy, Prefills(active), next)|
    ensures |places| == n && forall a :: 0 <= a < n ==> WorkAt(active, OrderPrefills(policy, Prefills(active), next)[a], places[a])
  {
    hide OrderPrefills, Prefills, WorkAt;
    if n == 0 {
      places := [];
    } else {
      var before := OrderedPlaces(policy, active, next, n - 1);
      var i := OrderedPlace(policy, active, next, n - 1);
      places := before + [i];
    }
  }

  lemma PrefillPart(cfg: Config, s: State, budget: nat) returns (places: seq<nat>)
    requires OneEach(s.active)
    ensures PrefillsPlaced(cfg.policy, s.active, s.next, SchedulePrefills(OrderPrefills(cfg.policy, Prefills(s.active), s.next), budget), places)
  {
    hide SchedulePrefills, OrderPrefills, Prefills, Sooner;
    var ordered := OrderPrefills(cfg.policy, Prefills(s.active), s.next);
    PrefillAmounts(ordered, budget);
    var prefills := SchedulePrefills(ordered, budget);
    places := OrderedPlaces(cfg.policy, s.active, s.next, |prefills|);
    forall a, b | 0 <= a < b < |prefills| ensures Sooner(cfg.policy, s.active, s.next, places[a], places[b]) {
      PlacesSooner(cfg.policy, s.active, s.next, a, b, places[a], places[b]);
    }
    forall a, j | 0 <= a < |prefills| && 0 <= j < |s.active| && s.active[j].phase.Prefill? && j !in places
      ensures Sooner(cfg.policy, s.active, s.next, places[a], j)
    {
      var b := WorkOf(cfg.policy, s.active, s.next, j);
      assert b >= |prefills| by { if b < |prefills| { SamePlace(s.active, ordered[b], places[b], j); } }
      PlacesSooner(cfg.policy, s.active, s.next, a, b, places[a], j);
    }
  }

  lemma SamePlace(active: seq<Request>, w: PrefillWork, i: nat, j: nat)
    requires OneEach(active) && WorkAt(active, w, i) && WorkAt(active, w, j)
    ensures i == j
  {
  }

  lemma PlacesSooner(policy: Policy, active: seq<Request>, next: Option<RequestId>, a: nat, b: nat, i: nat, j: nat)
    requires OneEach(active) && a < b < |OrderPrefills(policy, Prefills(active), next)|
    requires WorkAt(active, OrderPrefills(policy, Prefills(active), next)[a], i)
    requires WorkAt(active, OrderPrefills(policy, Prefills(active), next)[b], j)
    ensures Sooner(policy, active, next, i, j)
  {
    hide OrderPrefills, Prefills, Sooner;
    var i', j' := OrderedSooner(policy, active, next, a, b);
    SamePlace(active, OrderPrefills(policy, Prefills(active), next)[a], i, i');
    SamePlace(active, OrderPrefills(policy, Prefills(active), next)[b], j, j');
  }

  lemma WorkOf(policy: Policy, active: seq<Request>, next: Option<RequestId>, j: nat) returns (b: nat)
    requires j < |active| && active[j].phase.Prefill?
    ensures b < |OrderPrefills(policy, Prefills(active), next)| && WorkAt(active, OrderPrefills(policy, Prefills(active), next)[b], j)
  {
    hide Places, Prefills, OrderPrefills;
    var ordered, w := OrderPrefills(policy, Prefills(active), next), PrefillWork(active[j].id, active[j].phase.remaining);
    PrefillsAreActive(active);
    OrderKeepsWork(policy, Prefills(active), next);
    assert w in Prefills(active) && w in multiset(ordered);
    b :| 0 <= b < |ordered| && ordered[b] == w;
  }

  lemma DecodesFirst(cfg: Config, s: State, first: seq<nat>, second: seq<nat>, budget: nat)
    requires DecodesPlaced(s.active, ScheduleDecodes(s.active, cfg.maxBatchedTokens), first, cfg.maxBatchedTokens)
    requires budget == cfg.maxBatchedTokens - |ScheduleDecodes(s.active, cfg.maxBatchedTokens)|
    requires PrefillsPlaced(cfg.policy, s.active, s.next, SchedulePrefills(OrderPrefills(cfg.policy, Prefills(s.active), s.next), budget), second)
    ensures InOrder(cfg.policy, s.active, s.next, Decide(cfg, s).1, first + second)
  {
    hide ScheduleDecodes, SchedulePrefills, OrderPrefills, Prefills, NextCursor, DecodeCount, TurnStart;
    var decodes := ScheduleDecodes(s.active, cfg.maxBatchedTokens);
    var prefills := SchedulePrefills(OrderPrefills(cfg.policy, Prefills(s.active), s.next), budget);
    assert Decide(cfg, s).1 == decodes + prefills;
    PrefillGrants(OrderPrefills(cfg.policy, Prefills(s.active), s.next), budget);
    Joined(cfg.policy, s.active, s.next, decodes, first, prefills, second, budget > 0);
  }

  /** Prefills are granted only when every decode is. */
  lemma Joined(policy: Policy, active: seq<Request>, next: Option<RequestId>, decodes: seq<Grant>, first: seq<nat>,
               prefills: seq<Grant>, second: seq<nat>, left: bool)
    requires DecodesPlaced(active, decodes, first, |decodes| + if left then 1 else 0) && PrefillsPlaced(policy, active, next, prefills, second)
    requires prefills != [] ==> left
    ensures InOrder(policy, active, next, decodes + prefills, first + second)
  {
    var (grants, places) := (decodes + prefills, first + second);
    forall a | 0 <= a < |grants|
      ensures GrantAt(active, grants[a], places[a]) && grants[a].budget <= Need(active[places[a]])
      ensures a < |grants| - 1 ==> grants[a].budget == Need(active[places[a]])
    {
      if a >= |decodes| { assert PrefillPlaced(active, prefills[a - |decodes|], second[a - |decodes|], a - |decodes| < |prefills| - 1); }
    }
    forall a, b | 0 <= a < b < |grants| ensures Sooner(policy, active, next, places[a], places[b]) {
      if b >= |decodes| { assert PrefillPlaced(active, prefills[b - |decodes|], second[b - |decodes|], b - |decodes| < |prefills| - 1); }
      if a >= |decodes| { assert Sooner(policy, active, next, second[a - |decodes|], second[b - |decodes|]); }
    }
    forall a, j | 0 <= a < |grants| && 0 <= j < |active| && j !in places ensures Sooner(policy, active, next, places[a], j) {
      assert j !in first && j !in second;
      if a >= |decodes| {
        assert PrefillPlaced(active, prefills[a - |decodes|], second[a - |decodes|], a - |decodes| < |prefills| - 1);
        assert active[j].phase.Prefill?;
      }
    }
  }

  // ---- The cursor ---------------------------------------------------------------------------------

  /** The active prefill at a place got nothing. */
  ghost predicate LeftOut(active: seq<Request>, grants: seq<Grant>, i: nat) {
    i < |active| && active[i].phase.Prefill? && forall a :: 0 <= a < |grants| ==> grants[a].id != active[i].id
  }

  /** Round-robin turns go on with the first prefill that got nothing, and start over when each got some. */
  lemma CursorAdvances(cfg: Config, s: State) returns (x: nat)
    requires OneEach(s.active) && cfg.policy == RoundRobin && Prefills(s.active) != [] && DecodeCount(s.active) < cfg.maxBatchedTokens
    ensures var (s', grants) := Decide(cfg, s);
            && x < |s.active| && s.active[x].phase.Prefill? && s'.next == Some(s.active[x].id)
            && (forall j :: 0 <= j < |s.active| && j != x && LeftOut(s.active, grants, j) ==>
                  LeftOut(s.active, grants, x) && Sooner(RoundRobin, s.active, s.next, x, j))
            && (LeftOut(s.active, grants, x) ||
                  forall j :: 0 <= j < |s.active| && j != x && s.active[j].phase.Prefill? ==> Sooner(RoundRobin, s.active, s.next, x, j))
  {
    hide ScheduleDecodes, SchedulePrefills, OrderPrefills, Prefills, DecodeCount, Sooner, PositionOf;
    DecodesWithinBudget(s.active, cfg.maxBatchedTokens);
    var decodes := ScheduleDecodes(s.active, cfg.maxBatchedTokens);
    var ordered := OrderPrefills(RoundRobin, Prefills(s.active), s.next);
    OrderKeepsWork(RoundRobin, Prefills(s.active), s.next);
    var prefills := SchedulePrefills(ordered, cfg.maxBatchedTokens - |decodes|);
    assert ordered != [] by { assert |multiset(ordered)| == |ordered| && |multiset(Prefills(s.active))| == |Prefills(s.active)|; }
    PrefillGrants(ordered, cfg.maxBatchedTokens - |decodes|);
    var n := if |prefills| == |ordered| then 0 else |prefills|;
    CursorAt(s.active, s.next, ordered, prefills);
    x := OrderedPlace(RoundRobin, s.active, s.next, n);
    forall j | 0 <= j < |s.active| && j != x && LeftOut(s.active, decodes + prefills, j)
      ensures LeftOut(s.active, decodes + prefills, x) && Sooner(RoundRobin, s.active, s.next, x, j)
    {
      var b := WorkOf(RoundRobin, s.active, s.next, j);
      LeftOutBehind(s.active, decodes, prefills, ordered, j, b);
      if |prefills| < |ordered| {
        NotGranted(s.active, s.next, decodes, prefills, n, x, cfg.maxBatchedTokens);
        if b != n { PlacesSooner(RoundRobin, s.active, s.next, n, b, x, j); }
      }
    }
    if n == 0 {
      forall j | 0 <= j < |s.active| && j != x && s.active[j].phase.Prefill? ensures Sooner(RoundRobin, s.active, s.next, x, j) {
        var b := WorkOf(RoundRobin, s.active, s.next, j);
        if b != 0 { PlacesSooner(RoundRobin, s.active, s.next, 0, b, x, j); }
      }
    } else {
      NotGranted(s.active, s.next, decodes, prefills, n, x, cfg.maxBatchedTokens);
    }
  }

  lemma LeftOutBehind(active: seq<Request>, decodes: seq<Grant>, prefills: seq<Grant>, ordered: seq<PrefillWork>, j: nat, b: nat)
    requires LeftOut(active, decodes + prefills, j) && b < |ordered| && WorkAt(active, ordered[b], j) && |prefills| <= |ordered|
    requires forall a :: 0 <= a < |prefills| ==> prefills[a].id == ordered[a].id
    ensures b >= |prefills|
  {
    assert forall a :: 0 <= a < |prefills| ==> (decodes + prefills)[|decodes| + a].id == prefills[a].id != active[j].id;
  }

  lemma NotGranted(active: seq<Request>, next: Option<RequestId>, decodes: seq<Grant>, prefills: seq<Grant>, n: nat, x: nat, limit: nat)
    requires OneEach(active) && decodes == ScheduleDecodes(active, limit)
    requires var ordered := OrderPrefills(RoundRobin, Prefills(active), next);
             && n < |ordered| && |prefills| <= n && WorkAt(active, ordered[n], x)
             && forall a :: 0 <= a < |prefills| ==> prefills[a].id == ordered[a].id
    ensures LeftOut(active, decodes + prefills, x)
  {
    hide ScheduleDecodes, OrderPrefills, Prefills, OneEach;
    var ordered := OrderPrefills(RoundRobin, Prefills(active), next);
    OrderedApart(active, next);
    DecodeGrants(active, limit);
    forall a | 0 <= a < |decodes + prefills| ensures (decodes + prefills)[a].id != active[x].id {
      if a < |decodes| {
        assert decodes[a] in decodes && IsActiveIn(active, decodes[a].id, true) && IsActiveIn(active, active[x].id, false);
        PhasesApart(active, decodes[a].id, active[x].id);
      } else {
        assert (decodes + prefills)[a] == prefills[a - |decodes|];
      }
    }
  }

  lemma OrderedApart(active: seq<Request>, next: Option<RequestId>)
    requires OneEach(active)
    ensures var ordered := OrderPrefills(RoundRobin, Prefills(active), next);
            forall i, j :: 0 <= i < j < |ordered| ==> ordered[i].id != ordered[j].id
  {
    hide OrderPrefills, Prefills, OneEach;
    OnePrefillEach(active);
    OrderKeepsWork(RoundRobin, Prefills(active), next);
    ReorderedDistinct(OrderPrefills(RoundRobin, Prefills(active), next), Prefills(active));
  }

  lemma CursorAt(active: seq<Request>, next: Option<RequestId>, ordered: seq<PrefillWork>, prefills: seq<Grant>)
    requires OneEach(active) && ordered == OrderPrefills(RoundRobin, Prefills(active), next) && 0 < |prefills| <= |ordered|
    requires forall a :: 0 <= a < |prefills| ==> prefills[a].id == ordered[a].id
    ensures NextCursor(RoundRobin, ordered, prefills, next) == Some(ordered[if |prefills| == |ordered| then 0 else |prefills|].id)
  {
    hide OrderPrefills, Prefills, OneEach, PositionOf;
    OrderedApart(active, next);
    PositionOfFound(ordered, Last(prefills).id);
    assert Last(prefills).id == ordered[|prefills| - 1].id;
  }

  /** The other policies keep no cursor, no prefill means no turn, and a decision without room for prefills
      leaves the turn where it is. */
  lemma CursorStays(cfg: Config, s: State)
    ensures var s' := Decide(cfg, s).0;
            && (cfg.policy != RoundRobin ==> s'.next == s.next)
            && (cfg.policy == RoundRobin && Prefills(s.active) == [] ==> s'.next == None)
            && (cfg.policy == RoundRobin && Prefills(s.active) != [] && DecodeCount(s.active) >= cfg.maxBatchedTokens ==> s'.next == s.next)
  {
    hide ScheduleDecodes, OrderPrefills, Prefills, DecodeCount;
    DecodesWithinBudget(s.active, cfg.maxBatchedTokens);
    var ordered := OrderPrefills(cfg.policy, Prefills(s.active), s.next);
    OrderKeepsWork(cfg.policy, Prefills(s.active), s.next);
    assert |multiset(ordered)| == |ordered| && |multiset(Prefills(s.active))| == |Prefills(s.active)|;
  }
}
