/** The order in which requests wait in a flight: over every run the followers stand in the order in which
    they joined, so that a publication wakes them in that order and an aborted leader is followed by the
    one that has waited longest. */
module FlightOrder {
  import opened Common
  import opened PrefixCacheFlight

  /** x stands before y. */
  ghost predicate Before(s: seq<RequestId>, x: RequestId, y: RequestId) {
    exists i, j :: 0 <= i < j < |s| && s[i] == x && s[j] == y
  }

  ghost predicate SameFlight(s: Flights, x: RequestId, y: RequestId) {
    IsFollower(s, x) && IsFollower(s, y) && s.flightOf[x] == s.flightOf[y]
  }

  /** Both wait in one flight, x before y. */
  ghost predicate WaitsBefore(s: Flights, x: RequestId, y: RequestId) {
    SameFlight(s, x, y) && Before(s.flights[s.flightOf[x]].followers, x, y)
  }

  // ---- Sequences ----------------------------------------------------------------------------------

  lemma {:induction false} WithoutKeepsOrder(s: seq<RequestId>, r: RequestId, x: RequestId, y: RequestId)
    requires Before(s, x, y) && x != r && y != r
    ensures Before(Without(s, r), x, y)
    decreases |s|
  {
    var i, j :| 0 <= i < j < |s| && s[i] == x && s[j] == y;
    var rest, w := s[1..], Without(s, r);
    if s[0] == r {
      assert rest[i - 1] == x && rest[j - 1] == y;
    } else if i == 0 {
      WithoutKeeps(rest, r, y);
      assert rest[j - 1] == y;
      var k :| 0 <= k < |Without(rest, r)| && Without(rest, r)[k] == y;
      assert w[0] == x && w[k + 1] == y;
    } else {
      assert rest[i - 1] == x && rest[j - 1] == y;
      WithoutKeepsOrder(rest, r, x, y);
      var a, b :| 0 <= a < b < |Without(rest, r)| && Without(rest, r)[a] == x && Without(rest, r)[b] == y;
      assert w[a + 1] == x && w[b + 1] == y;
    }
  }

  lemma {:induction false} WithoutKeeps(s: seq<RequestId>, r: RequestId, x: RequestId)
    requires x in s && x != r
    ensures x in Without(s, r)
    decreases |s|
  {
    assert s == [s[0]] + s[1..];
    if s[0] != r && s[0] != x { WithoutKeeps(s[1..], r, x); }
  }

  lemma NotBothWays(s: seq<RequestId>, x: RequestId, y: RequestId)
    requires Distinct(s) && Before(s, x, y)
    ensures !Before(s, y, x) && x != y
  {
    var i, j :| 0 <= i < j < |s| && s[i] == x && s[j] == y;
    forall a, b | 0 <= a < b < |s| && s[a] == y ensures s[b] != x {
      assert a == j;
      assert s[i] != s[b];
    }
  }

  // ---- One operation ------------------------------------------------------------------------------

  /** Two requests that go on waiting in one flight stay in it, in the same order. */
  lemma StepKeepsOrder(s: Flights, op: FlightOp, x: RequestId, y: RequestId)
    requires FlightsOk(s) && WaitsBefore(s, x, y)
    requires IsFollower(FlightsAfter(s, op), x) && IsFollower(FlightsAfter(s, op), y)
    ensures WaitsBefore(FlightsAfter(s, op), x, y)
  {
    FlightKept(s, op, x);
    FlightKept(s, op, y);
    FollowersKept(s, op, s.flightOf[x]);
    var f := s.flightOf[x];
    var (before, after) := (s.flights[f].followers, FlightsAfter(s, op).flights[f].followers);
    var i, j :| 0 <= i < j < |before| && before[i] == x && before[j] == y;
    if after == before {
    } else if op.AddOp? {
      assert after[i] == x && after[j] == y;
    } else if after == before[1..] {
      assert i > 0 by { if i == 0 { FirstGone(s, f, after, x); } }
      assert after[i - 1] == x && after[j - 1] == y;
    } else {
      assert x != op.request && y != op.request by { Gone(s, op, x); Gone(s, op, y); }
      WithoutKeepsOrder(before, op.request, x, y);
    }
  }

  lemma FirstGone(s: Flights, f: FlightId, after: seq<RequestId>, x: RequestId)
    requires FlightsOk(s) && f in s.flights && s.flights[f].followers != [] && after == s.flights[f].followers[1..]
    requires x == s.flights[f].followers[0]
    ensures x !in after
  {
    assert FlightOk(s, f);
    forall k | 0 <= k < |after| ensures after[k] != x { assert after[k] == s.flights[f].followers[k + 1]; }
  }

  lemma Gone(s: Flights, op: FlightOp, x: RequestId)
    requires FlightsOk(s) && op.RemoveOp? && IsFollower(s, x) && IsFollower(FlightsAfter(s, op), x)
    ensures x != op.request || FlightsAfter(s, op) == s
  {
    RemoveExact(s, op.request, op.how);
    hide FlightsOk, Remove, IsFollower;
  }

  /** A request that goes on waiting does so in its flight. */
  lemma FlightKept(s: Flights, op: FlightOp, x: RequestId)
    requires FlightsOk(s) && IsFollower(s, x) && IsFollower(FlightsAfter(s, op), x)
    ensures FlightsAfter(s, op).flightOf[x] == s.flightOf[x] && s.flightOf[x] in FlightsAfter(s, op).flights
  {
    if op.AddOp? { IdsBelowNext(s); }
  }

  /** What an operation may do to the followers of a flight that stays: one joins at the end, the first one
      becomes the leader, or one leaves. */
  lemma FollowersKept(s: Flights, op: FlightOp, f: FlightId)
    requires FlightsOk(s) && f in s.flights && f in FlightsAfter(s, op).flights
    ensures var (before, after) := (s.flights[f].followers, FlightsAfter(s, op).flights[f].followers);
            || after == before
            || (op.AddOp? && after == before + [op.request])
            || (op.RemoveOp? && before != [] && after == before[1..])
            || (op.RemoveOp? && after == Without(before, op.request))
  {
    IdsBelowNext(s);
  }

  // ---- Joining --------------------------------------------------------------------------------------

  /** Request x joined with operation i and has waited since. */
  ghost predicate WaitsSince(states: seq<Flights>, ops: seq<FlightOp>, x: RequestId, i: nat, n: nat)
    requires |states| == |ops| + 1 && n <= |ops|
  {
    && i < n && ops[i].AddOp? && ops[i].request == x && !IsFollower(states[i], x)
    && forall k :: i < k <= n ==> IsFollower(states[k], x)
  }

  /** The later one of two that wait in one flight stands behind. */
  lemma {:induction false} StandInJoiningOrder(states: seq<Flights>, ops: seq<FlightOp>, x: RequestId, i: nat, y: RequestId, j: nat, n: nat)
    requires IsFlightRun(states, ops) && FlightsOk(states[0]) && n <= |ops|
    requires WaitsSince(states, ops, x, i, n) && WaitsSince(states, ops, y, j, n) && i < j && SameFlight(states[n], x, y)
    ensures WaitsBefore(states[n], x, y)
    decreases n
  {
    RunKeepsFlights(states, ops, n - 1);
    assert FlightRunStep(states, ops, n - 1);
    hide FlightsOk, IsFollower, FlightsAfter;
    if j == n - 1 {
      JoinsBehind(states[j], ops[j], x);
    } else {
      assert IsFollower(states[n - 1], x) && IsFollower(states[n - 1], y);
      FlightKept(states[n - 1], ops[n - 1], x);
      FlightKept(states[n - 1], ops[n - 1], y);
      StandInJoiningOrder(states, ops, x, i, y, j, n - 1);
      StepKeepsOrder(states[n - 1], ops[n - 1], x, y);
    }
  }

  lemma JoinsBehind(s: Flights, op: FlightOp, x: RequestId)
    requires FlightsOk(s) && op.AddOp? && IsFollower(s, x) && !IsFollower(s, op.request) && SameFlight(FlightsAfter(s, op), x, op.request)
    ensures WaitsBefore(FlightsAfter(s, op), x, op.request)
  {
    FlightKept(s, op, x);
    FollowersKept(s, op, s.flightOf[x]);
    var f := s.flightOf[x];
    var (before, after) := (s.flights[f].followers, FlightsAfter(s, op).flights[f].followers);
    var i :| 0 <= i < |before| && before[i] == x;
    if op.request in before { AddExact(s, op.request, op.input); assert FlightOk(s, f) && IsMember(s.flights[f], op.request); }
    assert after[i] == x && after[|before|] == op.request;
  }

  lemma WaitedSinceDifferent(states: seq<Flights>, ops: seq<FlightOp>, x: RequestId, i: nat, y: RequestId, j: nat, n: nat)
    requires |states| == |ops| + 1 && n <= |ops| && WaitsSince(states, ops, x, i, n) && WaitsSince(states, ops, y, j, n) && x != y
    ensures i != j
  {
  }

  /** In every run that starts without requests, each waiting request joined once and has waited since. */
  lemma {:induction false} EveryFollowerJoined(states: seq<Flights>, ops: seq<FlightOp>, x: RequestId, n: nat) returns (i: nat)
    requires IsFlightRun(states, ops) && FlightsOk(states[0]) && Empty(states[0]) && n <= |ops| && IsFollower(states[n], x)
    ensures WaitsSince(states, ops, x, i, n)
    decreases n
  {
    assert n > 0;
    RunKeepsFlights(states, ops, n - 1);
    assert FlightRunStep(states, ops, n - 1);
    if IsFollower(states[n - 1], x) {
      i := EveryFollowerJoined(states, ops, x, n - 1);
    } else {
      StartsWaiting(states[n - 1], ops[n - 1], x);
      i := n - 1;
    }
  }

  /** Only a request that joins starts to wait. */
  lemma StartsWaiting(s: Flights, op: FlightOp, x: RequestId)
    requires FlightsOk(s) && !IsFollower(s, x) && IsFollower(FlightsAfter(s, op), x)
    ensures op.AddOp? && op.request == x
  {
    match op
    case AddOp(r, input) => AddExact(s, r, input);
    case ReleaseOp(r) => ReleaseExact(s, r);
    case RemoveOp(r, how) =>
      RemoveExact(s, r, how);
      if x == r { FollowerIsKnown(FlightsAfter(s, op), x); }
  }

  lemma FollowerIsKnown(s: Flights, x: RequestId)
    requires IsFollower(s, x)
    ensures IsKnown(s, x)
  {
  }

  // ---- Who is woken, and when -------------------------------------------------------------------------

  /** Requests woken together are woken in the order in which they joined. */
  lemma WokenInJoiningOrder(states: seq<Flights>, ops: seq<FlightOp>, n: nat, a: nat, i: nat, b: nat, j: nat)
    requires IsFlightRun(states, ops) && FlightsOk(states[0]) && n < |ops|
    requires a < b < |Woken(states[n], ops[n])|
    requires WaitsSince(states, ops, Woken(states[n], ops[n])[a], i, n) && WaitsSince(states, ops, Woken(states[n], ops[n])[b], j, n)
    ensures i < j
  {
    RunKeepsFlights(states, ops, n);
    var s := states[n];
    var woken := Woken(s, ops[n]);
    var f := WokenAreFollowers(s, ops[n]);
    assert FlightOk(s, f);
    var (x, y) := (woken[a], woken[b]);
    assert Before(s.flights[f].followers, x, y);
    FollowerOf(s, f, a);
    FollowerOf(s, f, b);
    NotBothWays(s.flights[f].followers, x, y);
    if j < i { StandInJoiningOrder(states, ops, y, j, x, i, n); }
  }

  lemma FollowerOf(s: Flights, f: FlightId, k: nat)
    requires FlightsOk(s) && f in s.flights && k < |s.flights[f].followers|
    ensures IsFollower(s, s.flights[f].followers[k]) && s.flightOf[s.flights[f].followers[k]] == f
  {
    assert FlightOk(s, f) && IsMember(s.flights[f], s.flights[f].followers[k]);
  }

  /** When several requests are woken, they are all followers of one flight. */
  lemma WokenAreFollowers(s: Flights, op: FlightOp) returns (f: FlightId)
    requires FlightsOk(s) && |Woken(s, op)| > 1
    ensures f in s.flights && Woken(s, op) == s.flights[f].followers
  {
    f := s.flightOf[op.request];
  }

  /** When a leader aborts, the follower that takes its place has waited longest. */
  lemma PromotedWaitedLongest(states: seq<Flights>, ops: seq<FlightOp>, n: nat, x: RequestId, i: nat, y: RequestId, j: nat)
    requires IsFlightRun(states, ops) && FlightsOk(states[0]) && n < |ops|
    requires ops[n].RemoveOp? && ops[n].how == Aborted && x in Woken(states[n], ops[n])
    requires WaitsSince(states, ops, x, i, n) && WaitsSince(states, ops, y, j, n) && SameFlight(states[n], x, y) && x != y
    ensures i < j && IsLeader(states[n + 1], x) && WaitsSince(states, ops, y, j, n + 1)
  {
    RunKeepsFlights(states, ops, n);
    assert FlightRunStep(states, ops, n);
    var s := states[n];
    var f := s.flightOf[x];
    assert FlightOk(s, f);
    PromotedIsFirst(s, ops[n].request, x);
    var k :| 0 <= k < |s.flights[f].followers| && s.flights[f].followers[k] == y;
    assert Before(s.flights[f].followers, x, y) by { assert s.flights[f].followers[0] == x; }
    WaitedSinceDifferent(states, ops, x, i, y, j, n);
    NotBothWays(s.flights[f].followers, x, y);
    if j < i { StandInJoiningOrder(states, ops, y, j, x, i, n); }
    RestGoOnWaiting(s, ops[n].request, x, y);
  }

  lemma PromotedIsFirst(s: Flights, r: RequestId, x: RequestId)
    requires FlightsOk(s) && x in Woken(s, RemoveOp(r, Aborted)) && IsFollower(s, x)
    ensures s.flights[s.flightOf[x]].followers[0] == x && IsLeader(Remove(s, r, Aborted).flights, x)
  {
    assert FlightOk(s, s.flightOf[r]);
    FollowerOf(s, s.flightOf[r], 0);
  }

  lemma RestGoOnWaiting(s: Flights, r: RequestId, x: RequestId, y: RequestId)
    requires FlightsOk(s) && x in Woken(s, RemoveOp(r, Aborted)) && SameFlight(s, x, y) && x != y
    ensures IsFollower(Remove(s, r, Aborted).flights, y)
  {
    PromotedIsFirst(s, r, x);
    RemoveExact(s, r, Aborted);
    LeaderDoesNotWait(s, r, y);
  }

  lemma LeaderDoesNotWait(s: Flights, r: RequestId, y: RequestId)
    requires FlightsOk(s) && Woken(s, RemoveOp(r, Aborted)) != [] && IsFollower(s, y)
    ensures y != r && |Woken(s, RemoveOp(r, Aborted))| == 1
  {
    assert FlightOk(s, s.flightOf[r]);
  }
}
