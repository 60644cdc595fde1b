/** Single flight over identical inputs: one request of each flight may run, the others wait. */
module PrefixCacheFlight {
  import opened Common

  type FlightId = nat

  datatype Admission = Leader | Follower
  datatype Termination = Completed | Aborted
  datatype FlightError = AlreadyRegistered | NotRegistered | FollowerCannotPublish | FollowerCannotComplete
  datatype Outcome<+T> = Done(value: T) | Refused(error: FlightError)

  /** `followers` is a queue, oldest first. */
  datatype Flight = Flight(input: seq<Token>, leader: RequestId, followers: seq<RequestId>)

  datatype Flights = Flights(untilPublished: bool, nextId: FlightId, flights: map<FlightId, Flight>,
                             flightOf: map<RequestId, FlightId>, byInput: map<seq<Token>, FlightId>, released: set<RequestId>)

  /** The coordinator after a step and the requests that became runnable, in order. */
  datatype FlightStep = FlightStep(flights: Flights, runnable: Outcome<seq<RequestId>>)

  function Elements(s: seq<RequestId>): set<RequestId> { set x | x in s }

  ghost predicate IsMember(f: Flight, r: RequestId) { r == f.leader || r in f.followers }

  /** The maps agree: every registered request is in exactly the flight it is mapped to, every flight is
      found by its input, and released requests are no longer in any flight. */
  ghost predicate FlightsOk(s: Flights) {
    && (forall f {:trigger FlightOk(s, f)} :: f in s.flights ==> FlightOk(s, f))
    && (forall r {:trigger Registered(s, r)} :: r in s.flightOf ==> Registered(s, r))
    && (forall i :: i in s.byInput ==> s.byInput[i] in s.flights && s.flights[s.byInput[i]].input == i)
    && s.released !! s.flightOf.Keys
  }

  ghost predicate FlightOk(s: Flights, f: FlightId)
    requires f in s.flights
  {
    var flight := s.flights[f];
    && f < s.nextId
    && flight.input in s.byInput && s.byInput[flight.input] == f
    && flight.leader !in flight.followers && Distinct(flight.followers)
    && (forall r :: IsMember(flight, r) ==> r in s.flightOf && s.flightOf[r] == f)
  }

  ghost predicate Registered(s: Flights, r: RequestId)
    requires r in s.flightOf
  {
    s.flightOf[r] in s.flights && IsMember(s.flights[s.flightOf[r]], r)
  }

  /** A waiting request. */
  ghost predicate IsFollower(s: Flights, r: RequestId) {
    r in s.flightOf && s.flightOf[r] in s.flights && r in s.flights[s.flightOf[r]].followers
  }

  ghost predicate IsLeader(s: Flights, r: RequestId) {
    r in s.flightOf && s.flightOf[r] in s.flights && r == s.flights[s.flightOf[r]].leader
  }

  ghost predicate IsKnown(s: Flights, r: RequestId) { r in s.flightOf || r in s.released }

  ghost predicate Empty(s: Flights) { s.flights == map[] && s.flightOf == map[] && s.byInput == map[] && s.released == {} }

  // ---- The operations -------------------------------------------------------------------------

  datatype AddStep = AddStep(flights: Flights, admission: Outcome<Admission>)

  function Add(s: Flights, r: RequestId, input: seq<Token>): AddStep {
    if r in s.flightOf || r in s.released then AddStep(s, Refused(AlreadyRegistered))
    else if input in s.byInput && s.byInput[input] in s.flights then
      var f := s.byInput[input];
      AddStep(s.(flights := s.flights[f := s.flights[f].(followers := s.flights[f].followers + [r])],
                 flightOf := s.flightOf[r := f]), Done(Follower))
    else
      var f := s.nextId;
      AddStep(s.(nextId := f + 1, byInput := s.byInput[input := f], flights := s.flights[f := Flight(input, r, [])],
                 flightOf := s.flightOf[r := f]), Done(Leader))
  }

  function RemoveFlight(s: Flights, f: FlightId): Flights
    requires f in s.flights
  {
    var flight := s.flights[f];
    s.(flights := s.flights - {f}, byInput := s.byInput - {flight.input},
       flightOf := s.flightOf - ({flight.leader} + Elements(flight.followers)))
  }

  function ReleaseFollowers(s: Flights, f: FlightId, leaderActive: bool): FlightStep
    requires f in s.flights
  {
    var flight := s.flights[f];
    FlightStep(RemoveFlight(s, f).(released := s.released + (if leaderActive then {flight.leader} else {}) + Elements(flight.followers)),
               Done(flight.followers))
  }

  function ReleaseAfterPublication(s: Flights, r: RequestId): FlightStep {
    if !s.untilPublished then FlightStep(s, Done([]))
    else if r !in s.flightOf || s.flightOf[r] !in s.flights then FlightStep(s, Refused(NotRegistered))
    else if s.flights[s.flightOf[r]].leader != r then FlightStep(s, Refused(FollowerCannotPublish))
    else ReleaseFollowers(s, s.flightOf[r], true)
  }

  function Without(s: seq<RequestId>, r: RequestId): seq<RequestId> {
    if s == [] then [] else if s[0] == r then s[1..] else [s[0]] + Without(s[1..], r)
  }

  function Remove(s: Flights, r: RequestId, how: Termination): FlightStep {
    if r in s.released then FlightStep(s.(released := s.released - {r}), Done([]))
    else if r !in s.flightOf || s.flightOf[r] !in s.flights then FlightStep(s, Refused(NotRegistered))
    else
      var f := s.flightOf[r];
      var flight := s.flights[f];
      if flight.leader == r then
        if how == Completed then ReleaseFollowers(s, f, false)
        else if flight.followers == [] then FlightStep(RemoveFlight(s, f), Done([]))
        else
          FlightStep(s.(flights := s.flights[f := Flight(flight.input, flight.followers[0], flight.followers[1..])],
                        flightOf := s.flightOf - {r}), Done([flight.followers[0]]))
      else if how == Aborted then
        FlightStep(s.(flights := s.flights[f := flight.(followers := Without(flight.followers, r))],
                      flightOf := s.flightOf - {r}), Done([]))
      else FlightStep(s, Refused(FollowerCannotComplete))
  }

  function RequiresPublication(s: Flights, r: RequestId): bool {
    s.untilPublished && r in s.flightOf && s.flightOf[r] in s.flights && s.flights[s.flightOf[r]].leader == r
  }

  // ---- What every operation keeps -------------------------------------------------------------

  /** What one operation may do to who waits: the runnable requests are waiting ones, each listed once;
      they stop waiting and stay known; nobody else stops or starts waiting except as stated. */
  ghost predicate WakesExactly(s: Flights, s': Flights, runnable: seq<RequestId>, gone: set<RequestId>) {
    && Distinct(runnable)
    && (forall r :: r in runnable ==> IsFollower(s, r) && !IsFollower(s', r) && IsKnown(s', r))
    && (forall r :: r !in runnable && r !in gone ==> (IsFollower(s', r) <==> IsFollower(s, r)))
    && (forall r :: r !in gone ==> (IsKnown(s', r) <==> IsKnown(s, r)))
    && (forall r :: r in gone ==> !IsKnown(s', r))
  }

  /** A new request waits exactly when its input already has a flight; otherwise it leads a new one. */
  lemma AddExact(s: Flights, r: RequestId, input: seq<Token>)
    requires FlightsOk(s)
    ensures var step := Add(s, r, input);
            && FlightsOk(step.flights)
            && (IsKnown(s, r) ==> step.admission == Refused(AlreadyRegistered) && step.flights == s)
            && (!IsKnown(s, r) ==>
                  && step.admission == Done(if input in s.byInput then Follower else Leader)
                  && IsKnown(step.flights, r)
                  && (IsFollower(step.flights, r) <==> input in s.byInput)
                  && (IsLeader(step.flights, r) <==> input !in s.byInput)
                  && r in step.flights.flightOf && step.flights.flightOf[r] in step.flights.flights
                  && step.flights.flights[step.flights.flightOf[r]].input == input)
            && forall x :: x != r ==>
                 && (IsKnown(step.flights, x) <==> IsKnown(s, x))
                 && (IsFollower(step.flights, x) <==> IsFollower(s, x))
                 && (IsLeader(step.flights, x) <==> IsLeader(s, x))
  {
    if !IsKnown(s, r) {
      if input in s.byInput { FollowerAdded(s, r, input); } else { LeaderAdded(s, r, input); }
      AddedOthers(s, r, input);
    }
  }

  lemma FollowerAdded(s: Flights, r: RequestId, input: seq<Token>)
    requires FlightsOk(s) && !IsKnown(s, r) && input in s.byInput
    ensures var s' := Add(s, r, input).flights;
            && FlightsOk(s') && IsFollower(s', r) && !IsLeader(s', r) && s'.flights[s'.flightOf[r]].input == input
  {
    var s' := Add(s, r, input).flights;
    var g := s.byInput[input];
    assert FlightOk(s, g);
    assert forall x :: IsMember(s'.flights[g], x) <==> IsMember(s.flights[g], x) || x == r;
    forall f | f in s'.flights ensures FlightOk(s', f) { assert FlightOk(s, f); }
    forall x | x in s'.flightOf ensures Registered(s', x) {
      if x != r { assert Registered(s, x); }
    }
  }

  lemma LeaderAdded(s: Flights, r: RequestId, input: seq<Token>)
    requires FlightsOk(s) && !IsKnown(s, r) && input !in s.byInput
    ensures var s' := Add(s, r, input).flights;
            && FlightsOk(s') && !IsFollower(s', r) && IsLeader(s', r) && s'.flights[s'.flightOf[r]].input == input
  {
    var s' := Add(s, r, input).flights;
    forall f | f in s'.flights ensures FlightOk(s', f) {
      if f in s.flights { assert FlightOk(s, f); }
    }
    IdsBelowNext(s);
    forall x | x in s'.flightOf ensures Registered(s', x) {
      if x != r { assert Registered(s, x); }
    }
  }

  lemma IdsBelowNext(s: Flights)
    requires FlightsOk(s)
    ensures forall f :: f in s.flights ==> f < s.nextId
  {
    forall f | f in s.flights ensures f < s.nextId { assert FlightOk(s, f); }
  }

  lemma AddedOthers(s: Flights, r: RequestId, input: seq<Token>)
    requires FlightsOk(s) && !IsKnown(s, r)
    ensures var s' := Add(s, r, input).flights;
            forall x :: x != r ==>
              && (IsKnown(s', x) <==> IsKnown(s, x)) && (IsFollower(s', x) <==> IsFollower(s, x)) && (IsLeader(s', x) <==> IsLeader(s, x))
  {
    var s' := Add(s, r, input).flights;
    IdsBelowNext(s);
    forall x | x != r && x in s.flightOf
      ensures (IsFollower(s', x) <==> IsFollower(s, x)) && (IsLeader(s', x) <==> IsLeader(s, x))
    {
      assert Registered(s, x);
    }
  }

  lemma ReleaseFollowersExact(s: Flights, f: FlightId, leaderActive: bool)
    requires FlightsOk(s) && f in s.flights
    ensures var step := ReleaseFollowers(s, f, leaderActive);
            && FlightsOk(step.flights)
            && step.runnable == Done(s.flights[f].followers)
            && WakesExactly(s, step.flights, s.flights[f].followers, if leaderActive then {} else {s.flights[f].leader})
  {
    var flight := s.flights[f];
    var s' := ReleaseFollowers(s, f, leaderActive).flights;
    assert FlightOk(s, f);
    assert flight.leader in s.flightOf by { assert IsMember(flight, flight.leader); }
    forall x | x in s.flightOf
      ensures s.flightOf[x] in s.flights && (s.flightOf[x] == f <==> IsMember(flight, x))
    {
      assert Registered(s, x);
    }
    forall g | g in s'.flights ensures FlightOk(s', g) {
      assert FlightOk(s, g);
      assert s.flights[g].input != flight.input;
      forall x | IsMember(s.flights[g], x) ensures x in s'.flightOf && s'.flightOf[x] == g { assert !IsMember(flight, x); }
    }
    forall x | x in s'.flightOf ensures Registered(s', x) { assert Registered(s, x); }
    ReleaseWakesExactly(s, f, leaderActive);
    hide FlightsOk, FlightOk, Registered, IsMember, IsFollower, WakesExactly;
  }

  lemma ReleaseWakesExactly(s: Flights, f: FlightId, leaderActive: bool)
    requires FlightsOk(s) && f in s.flights
    ensures WakesExactly(s, ReleaseFollowers(s, f, leaderActive).flights, s.flights[f].followers, if leaderActive then {} else {s.flights[f].leader})
  {
    hide FlightsOk, IsFollower, IsKnown, ReleaseFollowers;
    FollowersDistinct(s, f);
    var s' := ReleaseFollowers(s, f, leaderActive).flights;
    forall x
      ensures IsFollower(s', x) <==> IsFollower(s, x) && x !in s.flights[f].followers
      ensures x in s.flights[f].followers ==> IsFollower(s, x) && IsKnown(s', x)
      ensures IsKnown(s', x) <==> IsKnown(s, x) && (leaderActive || x != s.flights[f].leader)
    {
      RolesAfterRelease(s, f, leaderActive, x);
    }
  }

  lemma FollowersDistinct(s: Flights, f: FlightId)
    requires FlightsOk(s) && f in s.flights
    ensures Distinct(s.flights[f].followers) && s.flights[f].leader !in s.flights[f].followers
  {
    assert FlightOk(s, f);
  }

  /** A released follower stops following and stays known; so does the leader, if it goes on. */
  lemma RolesAfterRelease(s: Flights, f: FlightId, leaderActive: bool, x: RequestId)
    requires FlightsOk(s) && f in s.flights
    ensures var s' := ReleaseFollowers(s, f, leaderActive).flights;
            && (IsFollower(s', x) <==> IsFollower(s, x) && x !in s.flights[f].followers)
            && (x in s.flights[f].followers ==> IsFollower(s, x) && IsKnown(s', x))
            && (IsKnown(s', x) <==> IsKnown(s, x) && (leaderActive || x != s.flights[f].leader))
  {
    assert FlightOk(s, f);
    if x in s.flightOf { assert Registered(s, x); }
    if IsMember(s.flights[f], x) { assert x in s.flightOf && s.flightOf[x] == f; }
  }

  lemma {:induction false} WithoutMembers(s: seq<RequestId>, r: RequestId)
    requires Distinct(s)
    ensures Distinct(Without(s, r)) && forall x :: x in Without(s, r) <==> x in s && x != r
    decreases |s|
  {
    if s != [] {
      var rest := s[1..];
      assert s == [s[0]] + rest;
      assert Distinct(rest) by { forall i, j | 0 <= i < j < |rest| ensures rest[i] != rest[j] { assert s[i + 1] != s[j + 1]; } }
      assert s[0] !in rest by { forall i | 0 <= i < |rest| ensures rest[i] != s[0] { assert s[i + 1] != s[0]; } }
      WithoutMembers(rest, r);
    }
  }

  /** A leader's publication wakes all its followers, in the order they came; anybody else is refused. Where
      flights last to their leader's end a publication changes nothing. */
  lemma ReleaseExact(s: Flights, r: RequestId)
    requires FlightsOk(s)
    ensures var step := ReleaseAfterPublication(s, r);
            && FlightsOk(step.flights)
            && (step.runnable.Refused? ==> step.flights == s)
            && (step.runnable.Refused? <==> s.untilPublished && !IsLeader(s, r))
            && (step.runnable.Done? ==> WakesExactly(s, step.flights, step.runnable.value, {}))
            && (s.untilPublished && IsLeader(s, r) ==> step.runnable == Done(s.flights[s.flightOf[r]].followers))
            && (!s.untilPublished ==> step == FlightStep(s, Done([])))
  {
    if s.untilPublished && r in s.flightOf {
      assert Registered(s, r);
      if s.flights[s.flightOf[r]].leader == r { ReleaseFollowersExact(s, s.flightOf[r], true); }
    }
  }

  /** Removing a completed leader wakes every follower; removing an aborted leader promotes the oldest
      follower, and the others keep their order; removing anybody else wakes nobody. */
  lemma RemoveExact(s: Flights, r: RequestId, how: Termination)
    requires FlightsOk(s)
    ensures var step := Remove(s, r, how);
            && FlightsOk(step.flights)
            && (step.runnable.Refused? ==> step.flights == s)
            && (step.runnable.Refused? <==> !IsKnown(s, r) || (IsFollower(s, r) && how == Completed))
            && (step.runnable.Done? ==> WakesExactly(s, step.flights, step.runnable.value, {r}))
            && (IsLeader(s, r) ==>
                  var waiting := s.flights[s.flightOf[r]].followers;
                  step.runnable == Done(if how == Completed then waiting else if waiting == [] then [] else [waiting[0]]))
            && (!IsLeader(s, r) && step.runnable.Done? ==> step.runnable.value == [])
            && (IsLeader(s, r) && how == Aborted && s.flights[s.flightOf[r]].followers != [] ==>
                  var f := s.flightOf[r];
                  && f in step.flights.flights && step.flights.flights[f].leader == s.flights[f].followers[0]
                  && step.flights.flights[f].followers == s.flights[f].followers[1..])
  {
    if r in s.released {
      ForgetReleased(s, r);
    } else if r in s.flightOf {
      assert Registered(s, r);
      var f := s.flightOf[r];
      var flight := s.flights[f];
      assert FlightOk(s, f);
      if flight.leader == r && (how == Completed || flight.followers == []) {
        ReleaseFollowersExact(s, f, false);
        if how == Aborted { assert ReleaseFollowers(s, f, false).flights == RemoveFlight(s, f); }
      } else if flight.leader == r {
        PromoteExact(s, r);
      } else if how == Aborted {
        DropFollowerExact(s, r);
      }
    }
  }

  lemma ForgetReleased(s: Flights, r: RequestId)
    requires FlightsOk(s) && r in s.released
    ensures FlightsOk(s.(released := s.released - {r}))
  {
    var s' := s.(released := s.released - {r});
    forall f | f in s'.flights ensures FlightOk(s', f) { assert FlightOk(s, f); }
    forall x | x in s'.flightOf ensures Registered(s', x) { assert Registered(s, x); }
  }

  lemma PromoteExact(s: Flights, r: RequestId)
    requires FlightsOk(s) && IsLeader(s, r) && s.flights[s.flightOf[r]].followers != [] && r !in s.released
    ensures var step := Remove(s, r, Aborted);
            FlightsOk(step.flights) && step.runnable.Done? && WakesExactly(s, step.flights, step.runnable.value, {r})
  {
    var f := s.flightOf[r];
    var flight := s.flights[f];
    assert FlightOk(s, f);
    var s' := Remove(s, r, Aborted).flights;
    var rest := flight.followers[1..];
    assert flight.followers == [flight.followers[0]] + rest;
    assert Distinct(rest) by {
      forall i, j | 0 <= i < j < |rest| ensures rest[i] != rest[j] { assert flight.followers[i + 1] != flight.followers[j + 1]; }
    }
    assert flight.followers[0] !in rest by {
      forall i | 0 <= i < |rest| ensures rest[i] != flight.followers[0] { assert flight.followers[i + 1] != flight.followers[0]; }
    }
    assert forall x :: IsMember(s'.flights[f], x) <==> x in flight.followers;
    KeptFlightsOk(s, s', f, r);
    assert IsMember(flight, flight.followers[0]);
    forall x | x in s.flightOf ensures s.flightOf[x] in s.flights && (s.flightOf[x] == f <==> IsMember(flight, x)) { assert Registered(s, x); }
  }

  lemma DropFollowerExact(s: Flights, r: RequestId)
    requires FlightsOk(s) && IsFollower(s, r) && !IsLeader(s, r) && r !in s.released
    ensures var step := Remove(s, r, Aborted);
            FlightsOk(step.flights) && step.runnable.Done? && WakesExactly(s, step.flights, step.runnable.value, {r})
  {
    var f := s.flightOf[r];
    var flight := s.flights[f];
    assert FlightOk(s, f);
    WithoutMembers(flight.followers, r);
    var s' := Remove(s, r, Aborted).flights;
    KeptFlightsOk(s, s', f, r);
    forall x | x in s.flightOf ensures s.flightOf[x] in s.flights && (s.flightOf[x] == f <==> IsMember(flight, x)) { assert Registered(s, x); }
  }

  /** Taking one member out of one flight leaves the maps consistent. */
  lemma KeptFlightsOk(s: Flights, s': Flights, f: FlightId, r: RequestId)
    requires FlightsOk(s) && f in s.flights && r in s.flightOf && s.flightOf[r] == f
    requires s' == s.(flights := s'.flights, flightOf := s.flightOf - {r})
    requires f in s'.flights && s'.flights == s.flights[f := s'.flights[f]] && s'.flights[f].input == s.flights[f].input
    requires forall x :: IsMember(s'.flights[f], x) <==> IsMember(s.flights[f], x) && x != r
    requires s'.flights[f].leader !in s'.flights[f].followers && Distinct(s'.flights[f].followers)
    ensures FlightsOk(s')
  {
    forall g | g in s'.flights ensures FlightOk(s', g) {
      assert FlightOk(s, g);
      forall x | IsMember(s'.flights[g], x) ensures x in s'.flightOf && s'.flightOf[x] == g {
        assert IsMember(s.flights[g], x);
      }
    }
    forall x | x in s'.flightOf ensures Registered(s', x) { assert Registered(s, x); }
  }

  // ---- Runs -----------------------------------------------------------------------------------

  datatype FlightOp =
    | AddOp(request: RequestId, input: seq<Token>)
    | ReleaseOp(request: RequestId)
    | RemoveOp(request: RequestId, how: Termination)

  function FlightsAfter(s: Flights, op: FlightOp): Flights {
    match op
    case AddOp(r, input) => Add(s, r, input).flights
    case ReleaseOp(r) => ReleaseAfterPublication(s, r).flights
    case RemoveOp(r, how) => Remove(s, r, how).flights
  }

  /** The requests an operation makes runnable after they had to wait. */
  function Woken(s: Flights, op: FlightOp): seq<RequestId> {
    match op
    case AddOp(_, _) => []
    case ReleaseOp(r) => (match ReleaseAfterPublication(s, r).runnable case Done(ids) => ids case Refused(_) => [])
    case RemoveOp(r, how) => (match Remove(s, r, how).runnable case Done(ids) => ids case Refused(_) => [])
  }

  ghost predicate IsFlightRun(states: seq<Flights>, ops: seq<FlightOp>) {
    && |states| == |ops| + 1
    && forall i :: 0 <= i < |ops| ==> FlightRunStep(states, ops, i)
  }

  ghost predicate FlightRunStep(states: seq<Flights>, ops: seq<FlightOp>, i: nat)
    requires |states| == |ops| + 1 && i < |ops|
  {
    states[i + 1] == FlightsAfter(states[i], ops[i])
  }

  /** The maps stay consistent over every run. */
  lemma {:induction false} RunKeepsFlights(states: seq<Flights>, ops: seq<FlightOp>, n: nat)
    requires IsFlightRun(states, ops) && FlightsOk(states[0]) && n <= |ops|
    ensures FlightsOk(states[n])
    decreases n
  {
    if n > 0 {
      RunKeepsFlights(states, ops, n - 1);
      assert FlightRunStep(states, ops, n - 1);
      hide FlightsOk;
      StepKeepsFlights(states[n - 1], ops[n - 1]);
    }
  }

  lemma PolicyStays(s: Flights, op: FlightOp)
    ensures FlightsAfter(s, op).untilPublished == s.untilPublished
  {
    hide Without;
  }

  lemma StepKeepsFlights(s: Flights, op: FlightOp)
    requires FlightsOk(s)
    ensures FlightsOk(FlightsAfter(s, op)) && FlightsAfter(s, op).untilPublished == s.untilPublished
    ensures forall r :: r in Woken(s, op) ==> IsFollower(s, r) && !IsFollower(FlightsAfter(s, op), r) && IsKnown(FlightsAfter(s, op), r)
    ensures forall r :: IsKnown(s, r) && !IsFollower(s, r) && !(op.RemoveOp? && op.request == r) ==>
              IsKnown(FlightsAfter(s, op), r) && !IsFollower(FlightsAfter(s, op), r)
  {
    PolicyStays(s, op);
    hide FlightsOk, Add, ReleaseAfterPublication, Remove, IsFollower, IsKnown;
    match op
    case AddOp(r, input) => AddExact(s, r, input);
    case ReleaseOp(r) => ReleaseExact(s, r);
    case RemoveOp(r, how) => RemoveExact(s, r, how);
  }

  /** A request that was woken stays awake until it is removed, so between two wakings of the same
      request lies its removal: no request becomes runnable twice. */
  lemma WokenAtMostOnce(states: seq<Flights>, ops: seq<FlightOp>, i: nat, j: nat, r: RequestId)
    requires IsFlightRun(states, ops) && FlightsOk(states[0]) && i < j < |ops|
    requires r in Woken(states[i], ops[i]) && r in Woken(states[j], ops[j])
    ensures exists k :: i < k < j && ops[k].RemoveOp? && ops[k].request == r
  {
    hide FlightsOk, IsFollower, IsKnown, Woken, FlightsAfter;
    RunKeepsFlights(states, ops, i);
    assert FlightRunStep(states, ops, i);
    StepKeepsFlights(states[i], ops[i]);
    RunKeepsFlights(states, ops, j);
    StepKeepsFlights(states[j], ops[j]);
    if forall k :: i < k < j ==> !(ops[k].RemoveOp? && ops[k].request == r) {
      StaysAwake(states, ops, i, j, r);
    }
  }

  lemma {:induction false} StaysAwake(states: seq<Flights>, ops: seq<FlightOp>, i: nat, j: nat, r: RequestId)
    requires IsFlightRun(states, ops) && FlightsOk(states[0]) && i < j <= |ops|
    requires IsKnown(states[i + 1], r) && !IsFollower(states[i + 1], r)
    requires forall k :: i < k < j ==> !(ops[k].RemoveOp? && ops[k].request == r)
    ensures IsKnown(states[j], r) && !IsFollower(states[j], r)
    decreases j
  {
    if i + 1 < j {
      StaysAwake(states, ops, i, j - 1, r);
      RunKeepsFlights(states, ops, j - 1);
      assert FlightRunStep(states, ops, j - 1);
      hide FlightsOk, IsFollower, IsKnown, FlightsAfter, Woken;
      StepKeepsFlights(states[j - 1], ops[j - 1]);
    }
  }

  /** At most one unreleased request per input may run: two leaders of one input are the same request. */
  lemma OneRunnablePerInput(s: Flights, r: RequestId, x: RequestId)
    requires FlightsOk(s) && IsLeader(s, r) && IsLeader(s, x)
    requires s.flights[s.flightOf[r]].input == s.flights[s.flightOf[x]].input
    ensures r == x
  {
    assert FlightOk(s, s.flightOf[r]) && FlightOk(s, s.flightOf[x]);
  }

  /** A registered request waits exactly when it does not lead its flight, and then its leader is a
      registered request of the same input that does not wait. */
  lemma FollowerHasLeader(s: Flights, r: RequestId)
    requires FlightsOk(s) && r in s.flightOf
    ensures IsFollower(s, r) <==> !IsLeader(s, r)
    ensures var leader := s.flights[s.flightOf[r]].leader;
            IsLeader(s, leader) && !IsFollower(s, leader) && leader in s.flightOf && s.flightOf[leader] == s.flightOf[r]
  {
    assert Registered(s, r);
    var f := s.flightOf[r];
    assert FlightOk(s, f);
    assert IsMember(s.flights[f], s.flights[f].leader);
  }
}
