/** Routing as functions on the orchestrator's state: selection by score, and the reserved load of
    requests that were routed but are not in their backend's published snapshot yet. */
module RoutingSpec {
  import opened Common
  import opened PrefixCacheFlight
  import opened SchedulerSpec

  /** `BackendReservedLoad`. */
  datatype Load = Load(requests: nat, prefill: nat, cached: nat, output: nat)

  const NO_LOAD := Load(0, 0, 0, 0)

  /** `BackendRoutingState`. */
  datatype Backend = Backend(reserved: Load, lastSelected: nat)

  datatype RoutingState = RoutingState(epoch: nat, backends: seq<Backend>)

  function Plus(a: Load, b: Load): Load {
    Load(a.requests + b.requests, a.prefill + b.prefill, a.cached + b.cached, a.output + b.output)
  }

  predicate Within(a: Load, b: Load) {
    a.requests <= b.requests && a.prefill <= b.prefill && a.cached <= b.cached && a.output <= b.output
  }

  function Minus(a: Load, b: Load): Load
    requires Within(b, a)
  {
    Load(a.requests - b.requests, a.prefill - b.prefill, a.cached - b.cached, a.output - b.output)
  }

  /** `BackendReservedLoad::new`. */
  function RequestLoad(inputCount: nat, cached: nat, maxNew: nat): Load { Load(1, inputCount, Min(cached, inputCount), maxNew) }

  function Reserve(s: RoutingState, b: nat, load: Load): RoutingState
    requires b < |s.backends|
  {
    s.(backends := s.backends[b := s.backends[b].(reserved := Plus(s.backends[b].reserved, load))])
  }

  function Release(s: RoutingState, b: nat, load: Load): RoutingState
    requires b < |s.backends| && Within(load, s.backends[b].reserved)
  {
    s.(backends := s.backends[b := s.backends[b].(reserved := Minus(s.backends[b].reserved, load))])
  }

  function RecordSelection(s: RoutingState, b: nat): RoutingState
    requires b < |s.backends|
  {
    RoutingState(s.epoch + 1, s.backends[b := s.backends[b].(lastSelected := s.epoch + 1)])
  }

  // ---- Selection ------------------------------------------------------------------------------

  /** Whether backend i is preferred to backend j: a lower score, or the same score and selected longer
      ago. */
  predicate Preferred(s: RoutingState, scores: seq<int>, i: nat, j: nat)
    requires i < |s.backends| == |scores| && j < |scores|
  {
    scores[i] < scores[j] || (scores[i] == scores[j] && s.backends[i].lastSelected < s.backends[j].lastSelected)
  }

  /** The first of the n first backends that no other one of them is preferred to. */
  function Best(s: RoutingState, scores: seq<int>, n: nat): (best: nat)
    requires 0 < n <= |s.backends| == |scores|
    ensures best < n
  {
    if n == 1 then 0
    else
      var best := Best(s, scores, n - 1);
      if Preferred(s, scores, n - 1, best) then n - 1 else best
  }

  /** Backend i is the first of the n first backends that none of them is preferred to. */
  ghost predicate IsBest(s: RoutingState, scores: seq<int>, n: nat, i: nat)
    requires i < n <= |s.backends| == |scores|
  {
    && (forall j: nat :: j < n ==> !Preferred(s, scores, j, i))
    && (forall j: nat :: j < i ==> Preferred(s, scores, i, j))
  }

  lemma {:induction false} BestExact(s: RoutingState, scores: seq<int>, n: nat)
    requires 0 < n <= |s.backends| == |scores|
    ensures IsBest(s, scores, n, Best(s, scores, n))
    decreases n
  {
    if n > 1 {
      BestExact(s, scores, n - 1);
      var before, best := Best(s, scores, n - 1), Best(s, scores, n);
      forall j: nat | j < n
        ensures !Preferred(s, scores, j, best) && (j < best ==> Preferred(s, scores, best, j))
      {
        if j < n - 1 { assert !Preferred(s, scores, j, before) && (j < before ==> Preferred(s, scores, before, j)); }
      }
    }
  }

  /** `route_by_score`: an override wins, otherwise the best score; the selection is recorded. */
  function RouteByScore(s: RoutingState, override: Option<nat>, scores: seq<int>): (RoutingState, nat)
    requires 0 < |s.backends| == |scores| && (override.Some? ==> override.value < |scores|)
  {
    var b := if override.Some? then override.value else Best(s, scores, |scores|);
    (RecordSelection(s, b), b)
  }

  /** No backend was selected after the last selection. */
  ghost predicate EpochsOk(s: RoutingState) {
    forall i :: 0 <= i < |s.backends| ==> s.backends[i].lastSelected <= s.epoch
  }

  function EqualScores(n: nat): (scores: seq<int>)
    ensures |scores| == n && forall i, j :: 0 <= i < n && 0 <= j < n ==> scores[i] == scores[j]
  {
    seq(n, _ => 0)
  }

  /** Consecutive selections among equal scores, whatever reservations come and go between them. */
  ghost predicate IsTurn(n: nat, before: RoutingState, picked: nat, after: RoutingState) {
    && |before.backends| == n == |after.backends| && n > 0
    && picked == Best(before, EqualScores(n), n)
    && after.epoch == before.epoch + 1
    && forall i :: 0 <= i < n ==>
         after.backends[i].lastSelected == if i == picked then after.epoch else before.backends[i].lastSelected
  }

  ghost predicate IsTurnRun(n: nat, states: seq<RoutingState>, picks: seq<nat>) {
    |states| == |picks| + 1 && forall k :: 0 <= k < |picks| ==> TurnAt(n, states, picks, k)
  }

  ghost predicate TurnAt(n: nat, states: seq<RoutingState>, picks: seq<nat>, k: nat)
    requires |states| == |picks| + 1 && k < |picks|
  {
    IsTurn(n, states[k], picks[k], states[k + 1])
  }

  lemma {:induction false} TurnsKeepEpochs(n: nat, states: seq<RoutingState>, picks: seq<nat>, k: nat)
    requires IsTurnRun(n, states, picks) && EpochsOk(states[0]) && k <= |picks|
    ensures EpochsOk(states[k]) && (|picks| > 0 ==> |states[k].backends| == n)
    decreases k
  {
    if k > 0 {
      TurnsKeepEpochs(n, states, picks, k - 1);
      assert TurnAt(n, states, picks, k - 1);
    } else if |picks| > 0 {
      assert TurnAt(n, states, picks, 0);
    }
  }

  /** What the turns from i on have selected: those backends, and only those, are newer than epoch i. */
  lemma {:induction false} SelectedSince(n: nat, states: seq<RoutingState>, picks: seq<nat>, i: nat, k: nat)
    requires IsTurnRun(n, states, picks) && EpochsOk(states[0]) && i <= k <= |picks| && |picks| > 0
    ensures |states[k].backends| == n && states[k].epoch == states[i].epoch + (k - i)
    ensures forall b :: 0 <= b < n ==> (states[k].backends[b].lastSelected > states[i].epoch <==> b in picks[i..k])
    decreases k
  {
    TurnsKeepEpochs(n, states, picks, i);
    if k > i {
      SelectedSince(n, states, picks, i, k - 1);
      assert TurnAt(n, states, picks, k - 1);
      assert picks[i..k] == picks[i..k - 1] + [picks[k - 1]];
    }
  }

  lemma {:induction false} Below(n: nat) returns (all: set<nat>)
    ensures |all| == n && forall x: nat :: x in all <==> x < n
    decreases n
  {
    if n == 0 {
      all := {};
    } else {
      all := Below(n - 1);
      all := all + {n - 1};
    }
  }

  lemma {:induction false} ElementCount(s: seq<nat>)
    ensures |Elements(s)| <= |s|
    decreases |s|
  {
    if s != [] {
      ElementCount(s[1..]);
      assert Elements(s) == Elements(s[1..]) + {s[0]};
    }
  }

  /** Fewer than n picks leave some backend out. */
  lemma SomeoneLeft(n: nat, picks: seq<nat>) returns (b: nat)
    requires |picks| < n
    ensures b < n && b !in picks
  {
    var all := Below(n);
    ElementCount(picks);
    var chosen := Elements(picks);
    assert !(all <= chosen) by {
      if all <= chosen { Subsets(all, chosen); }
    }
    b :| b in all && b !in chosen;
  }

  lemma {:induction false} Subsets(a: set<nat>, b: set<nat>)
    requires a <= b
    ensures |a| <= |b|
    decreases |a|
  {
    if a != {} {
      var x :| x in a;
      Subsets(a - {x}, b - {x});
    }
  }

  /** With equal scores the selection is cyclic: any n consecutive selections among n backends select
      each backend once. */
  lemma RoundRobinCycles(n: nat, states: seq<RoutingState>, picks: seq<nat>, i: nat, k: nat)
    requires IsTurnRun(n, states, picks) && EpochsOk(states[0]) && i < k < |picks| && k - i < n
    ensures picks[i] != picks[k] && picks[i] < n
  {
    SelectedSince(n, states, picks, i, k);
    assert TurnAt(n, states, picks, k) && TurnAt(n, states, picks, i);
    var free := SomeoneLeft(n, picks[i..k]);
    BestExact(states[k], EqualScores(n), n);
    assert !Preferred(states[k], EqualScores(n), free, picks[k]);
    assert picks[i..k][0] == picks[i];
  }

  // ---- Routing remembers ------------------------------------------------------------------------

  /** A routed request goes to the overridden backend, or to the first unbeaten one. That backend is now the
      one selected last, and nothing else about any backend changes. */
  lemma RouteRemembers(s: RoutingState, override: Option<nat>, scores: seq<int>)
    requires 0 < |s.backends| == |scores| && (override.Some? ==> override.value < |scores|) && EpochsOk(s)
    ensures var (s', b) := RouteByScore(s, override, scores);
            && b < |s.backends| == |s'.backends| && EpochsOk(s')
            && (override.Some? ==> b == override.value) && (override.None? ==> IsBest(s, scores, |scores|, b))
            && s'.epoch == s.epoch + 1 == s'.backends[b].lastSelected
            && (forall i :: 0 <= i < |s.backends| && i != b ==>
                  s'.backends[i] == s.backends[i] && s'.backends[i].lastSelected < s'.backends[b].lastSelected)
            && s'.backends[b].reserved == s.backends[b].reserved
  {
    BestExact(s, scores, |scores|);
  }

  predicate AllEqual(scores: seq<int>) { forall i, j :: 0 <= i < |scores| && 0 <= j < |scores| ==> scores[i] == scores[j] }

  /** The first unbeaten backend is unique, so only comparisons of scores count. */
  lemma BestIsUnique(s: RoutingState, scores: seq<int>, others: seq<int>, i: nat, j: nat)
    requires 0 < |s.backends| == |scores| == |others| && AllEqual(scores) && AllEqual(others) && i < |scores| && j < |scores|
    requires IsBest(s, scores, |scores|, i) && IsBest(s, others, |others|, j)
    ensures i == j
  {
    assert Preferred(s, scores, i, j) == Preferred(s, others, i, j) && Preferred(s, scores, j, i) == Preferred(s, others, j, i);
    assert !Preferred(s, scores, j, i) && !Preferred(s, others, i, j);
  }

  /** Routing among equal scores without an override is a turn. */
  lemma RouteIsTurn(s: RoutingState, scores: seq<int>)
    requires 0 < |s.backends| == |scores| && AllEqual(scores)
    ensures var (s', b) := RouteByScore(s, None, scores);
            IsTurn(|scores|, s, b, s')
  {
    BestExact(s, scores, |scores|);
    BestExact(s, EqualScores(|scores|), |scores|);
    BestIsUnique(s, scores, EqualScores(|scores|), Best(s, scores, |scores|), Best(s, EqualScores(|scores|), |scores|));
  }

  // ---- Runs of routing -------------------------------------------------------------------------

  /** A request is routed among equal scores and its load reserved, or a reservation is released. */
  datatype RoutingOp = RouteOp(scores: seq<int>, load: Load) | ReleaseOp(backend: nat, load: Load)

  predicate RoutingAllowed(s: RoutingState, op: RoutingOp) {
    match op
    case RouteOp(scores, _) => 0 < |s.backends| == |scores| && AllEqual(scores)
    case ReleaseOp(b, load) => b < |s.backends| && Within(load, s.backends[b].reserved)
  }

  function RoutingAfter(s: RoutingState, op: RoutingOp): RoutingState
    requires RoutingAllowed(s, op)
  {
    match op
    case RouteOp(scores, load) => var (s', b) := RouteByScore(s, None, scores); Reserve(s', b, load)
    case ReleaseOp(b, load) => Release(s, b, load)
  }

  ghost predicate IsRoutingRun(states: seq<RoutingState>, ops: seq<RoutingOp>) {
    |states| == |ops| + 1 && forall i :: 0 <= i < |ops| ==> RoutingStep(states[i], ops[i], states[i + 1])
  }

  ghost predicate RoutingStep(s: RoutingState, op: RoutingOp, s': RoutingState) { RoutingAllowed(s, op) && s' == RoutingAfter(s, op) }

  /** The backends that the routed requests went to, in order. */
  ghost function Picks(states: seq<RoutingState>, ops: seq<RoutingOp>, n: nat): seq<nat>
    requires IsRoutingRun(states, ops) && n <= |ops|
  {
    if n == 0 then []
    else
      assert RoutingStep(states[n - 1], ops[n - 1], states[n]);
      Picks(states, ops, n - 1) + (if ops[n - 1].RouteOp? then [RouteByScore(states[n - 1], None, ops[n - 1].scores).1] else [])
  }

  /** When each backend was selected, without its load. */
  function Unloaded(s: RoutingState): RoutingState {
    RoutingState(s.epoch, seq(|s.backends|, i requires 0 <= i < |s.backends| => Backend(NO_LOAD, s.backends[i].lastSelected)))
  }

  lemma {:induction false} BestWithoutLoad(s: RoutingState, scores: seq<int>, n: nat)
    requires 0 < n <= |s.backends| == |scores|
    ensures Best(Unloaded(s), scores, n) == Best(s, scores, n)
    decreases n
  {
    if n > 1 { BestWithoutLoad(s, scores, n - 1); }
  }

  lemma ReservationKeepsSelections(s: RoutingState, op: RoutingOp)
    requires RoutingAllowed(s, op)
    ensures op.ReleaseOp? ==> Unloaded(RoutingAfter(s, op)) == Unloaded(s)
    ensures op.RouteOp? ==> IsTurn(|s.backends|, Unloaded(s), RouteByScore(s, None, op.scores).1, Unloaded(RoutingAfter(s, op)))
  {
    if op.RouteOp? {
      RouteIsTurn(s, op.scores);
      BestWithoutLoad(s, EqualScores(|s.backends|), |s.backends|);
    } else {
      assert Unloaded(RoutingAfter(s, op)).backends == Unloaded(s).backends;
    }
  }

  /** The routings of a run are consecutive turns, whatever is released in between. */
  lemma {:induction false} RoutingsAreTurns(states: seq<RoutingState>, ops: seq<RoutingOp>, n: nat) returns (turns: seq<RoutingState>)
    requires IsRoutingRun(states, ops) && n <= |ops|
    ensures |turns| > 0 && turns[0] == Unloaded(states[0]) && Last(turns) == Unloaded(states[n])
    ensures IsTurnRun(|states[0].backends|, turns, Picks(states, ops, n)) && |states[n].backends| == |states[0].backends|
    decreases n
  {
    if n == 0 {
      turns := [Unloaded(states[0])];
    } else {
      var before := RoutingsAreTurns(states, ops, n - 1);
      assert RoutingStep(states[n - 1], ops[n - 1], states[n]);
      ReservationKeepsSelections(states[n - 1], ops[n - 1]);
      var (size, done) := (|states[0].backends|, Picks(states, ops, n - 1));
      if ops[n - 1].RouteOp? {
        turns := before + [Unloaded(states[n])];
        MoreTurns(size, before, done, RouteByScore(states[n - 1], None, ops[n - 1].scores).1, Unloaded(states[n]));
      } else {
        turns := before;
        assert Picks(states, ops, n) == done + [] == done;
      }
    }
  }

  lemma MoreTurns(n: nat, states: seq<RoutingState>, picks: seq<nat>, b: nat, after: RoutingState)
    requires IsTurnRun(n, states, picks) && IsTurn(n, Last(states), b, after)
    ensures IsTurnRun(n, states + [after], picks + [b])
  {
    forall k | 0 <= k < |picks| + 1 ensures TurnAt(n, states + [after], picks + [b], k) {
      if k < |picks| { assert TurnAt(n, states, picks, k); }
    }
  }

  /** Over every run of routings among equal scores and releases of reservations, any n consecutive routings
      among n backends go to each of them once. */
  lemma RoutingCycles(states: seq<RoutingState>, ops: seq<RoutingOp>, i: nat, k: nat)
    requires IsRoutingRun(states, ops) && EpochsOk(states[0])
    requires i < k < |Picks(states, ops, |ops|)| && k - i < |states[0].backends|
    ensures var picks := Picks(states, ops, |ops|);
            picks[i] != picks[k] && picks[i] < |states[0].backends|
  {
    var turns := RoutingsAreTurns(states, ops, |ops|);
    RoundRobinCycles(|states[0].backends|, turns, Picks(states, ops, |ops|), i, k);
  }

  // ---- Handing a reservation over to the worker's snapshot ---------------------------------------

  /** `OperationalState` without its epoch. */
  datatype Snapshot = Snapshot(queued: nat, active: nat, queuedPrefill: nat, queuedCached: nat, queuedOutput: nat,
                               activePrefill: nat, activeOutput: nat)

  function TotalPrefill(s: seq<Request>): nat { if s == [] then 0 else TotalPrefill(s[..|s| - 1]) + RemainingPrefill(Last(s)) }

  function TotalCached(s: seq<Request>): nat { if s == [] then 0 else TotalCached(s[..|s| - 1]) + Last(s).cachedEstimate }

  function RemainingOutput(r: Request): nat { if r.maxNew >= r.generated then r.maxNew - r.generated else 0 }

  function TotalOutput(s: seq<Request>): nat { if s == [] then 0 else TotalOutput(s[..|s| - 1]) + RemainingOutput(Last(s)) }

  function LoadSnapshot(s: State): Snapshot {
    Snapshot(|s.queue|, |s.active|, TotalPrefill(s.queue), TotalCached(s.queue), TotalOutput(s.queue),
             TotalPrefill(s.active), TotalOutput(s.active))
  }

  /** The snapshot of no request, and what one more queued or active request adds to it. */
  lemma SnapshotAdds(s: State, r: Request)
    ensures LoadSnapshot(s.(queue := [], active := [])) == Snapshot(0, 0, 0, 0, 0, 0, 0)
    ensures var p := LoadSnapshot(s);
            && LoadSnapshot(s.(queue := s.queue + [r])) ==
               p.(queued := p.queued + 1, queuedPrefill := p.queuedPrefill + RemainingPrefill(r),
                  queuedCached := p.queuedCached + r.cachedEstimate, queuedOutput := p.queuedOutput + Max(r.maxNew - r.generated, 0))
            && LoadSnapshot(s.(active := s.active + [r])) ==
               p.(active := p.active + 1, activePrefill := p.activePrefill + RemainingPrefill(r),
                  activeOutput := p.activeOutput + Max(r.maxNew - r.generated, 0))
  {
    assert (s.queue + [r])[..|s.queue|] == s.queue && (s.active + [r])[..|s.active|] == s.active;
  }

  /** `OperationalState::with_reserved_load`. */
  function WithReserved(p: Snapshot, load: Load): Snapshot {
    p.(queued := p.queued + load.requests, queuedPrefill := p.queuedPrefill + load.prefill,
       queuedCached := p.queuedCached + load.cached, queuedOutput := p.queuedOutput + load.output)
  }

  /** When a worker publishes a newly enqueued request and releases its reservation, routing sees the
      same load as before, exactly when the cached prefix was estimated over the input without its last
      token, as the routing policies do. */
  lemma HandoverConserves(cfg: Config, s: State, id: RequestId, input: seq<Token>, maxNew: nat, cached: nat, others: Load)
    requires cfg.pageTokens > 0 && |input| + maxNew > 0
    requires Enqueue(cfg, s, id, input, maxNew, Min(cached, |input|)).1 == None
    ensures var s' := Enqueue(cfg, s, id, input, maxNew, Min(cached, |input|)).0;
            WithReserved(LoadSnapshot(s'), others) == WithReserved(LoadSnapshot(s), Plus(others, RequestLoad(|input|, cached, maxNew)))
            <==> (cached < |input| || input == [])
  {
    var s' := Enqueue(cfg, s, id, input, maxNew, Min(cached, |input|)).0;
    var r := Last(s'.queue);
    assert s'.queue == s.queue + [r] && s'.queue[..|s'.queue| - 1] == s.queue;
    assert r.maxNew == maxNew && r.generated == 0 && r.phase == Prefill(|input|);
    assert r.cachedEstimate == Min(Min(cached, |input|), Max(|input| - 1, 0));
  }
}
