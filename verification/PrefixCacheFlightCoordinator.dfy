/** The flight coordinator as the object the scheduler mutates. */
module PrefixCacheFlightObject {
  import opened Common
  import opened PrefixCacheFlight

  lemma {:induction false} WithoutAt(s: seq<RequestId>, r: RequestId, i: nat)
    requires i < |s| && s[i] == r && forall j :: 0 <= j < i ==> s[j] != r
    ensures Without(s, r) == s[..i] + s[i + 1..]
    decreases |s|
  {
    if i > 0 {
      WithoutAt(s[1..], r, i - 1);
      assert s[..i] == [s[0]] + s[1..][..i - 1];
    }
  }

  lemma ElementsSnoc(s: seq<RequestId>, r: RequestId)
    ensures Elements(s + [r]) == Elements(s) + {r}
  {
  }

  class PrefixCacheFlightCoordinator {
    const untilPublished: bool
    var nextFlightId: FlightId
    var flights: map<FlightId, Flight>
    var requestFlightIds: map<RequestId, FlightId>
    var exactInputIndex: map<seq<Token>, FlightId>
    var releasedRequestIds: set<RequestId>

    ghost function Value(): Flights
      reads this
    {
      Flights(untilPublished, nextFlightId, flights, requestFlightIds, exactInputIndex, releasedRequestIds)
    }

    /** The maps are mutually consistent. */
    ghost predicate Valid()
      reads this
    {
      FlightsOk(Value())
    }

    constructor (releaseOnPublication: bool)
      ensures Valid() && Empty(Value()) && untilPublished == releaseOnPublication && fresh(this)
    {
      untilPublished := releaseOnPublication;
      nextFlightId, flights, requestFlightIds, exactInputIndex, releasedRequestIds := 0, map[], map[], map[], {};
    }

    method AddRequest(r: RequestId, input: seq<Token>) returns (admission: Outcome<Admission>)
      requires Valid()
      modifies this
      ensures Valid() && AddStep(Value(), admission) == Add(old(Value()), r, input)
    {
      hide FlightsOk;
      AddExact(Value(), r, input);
      if r in requestFlightIds || r in releasedRequestIds { return Refused(AlreadyRegistered); }
      IndexedInputs(Value());
      if input in exactInputIndex {
        var f := exactInputIndex[input];
        flights := flights[f := flights[f].(followers := flights[f].followers + [r])];
        requestFlightIds := requestFlightIds[r := f];
        admission := Done(Follower);
      } else {
        var f := nextFlightId;
        nextFlightId := nextFlightId + 1;
        exactInputIndex := exactInputIndex[input := f];
        flights := flights[f := Flight(input, r, [])];
        requestFlightIds := requestFlightIds[r := f];
        admission := Done(Leader);
      }
    }

    /** Takes a flight and all its members out of the maps, member by member. */
    method TakeFlight(f: FlightId) returns (flight: Flight)
      requires f in flights
      modifies this
      ensures flight == old(flights)[f] && Value() == RemoveFlight(old(Value()), f)
    {
      flight := flights[f];
      flights := flights - {f};
      exactInputIndex := exactInputIndex - {flight.input};
      ghost var before := requestFlightIds;
      requestFlightIds := requestFlightIds - {flight.leader};
      for i := 0 to |flight.followers|
        invariant requestFlightIds == before - ({flight.leader} + Elements(flight.followers[..i]))
        invariant Value() == old(Value()).(flights := old(flights) - {f}, byInput := old(exactInputIndex) - {flight.input},
                                           flightOf := requestFlightIds)
      {
        assert flight.followers[..i + 1] == flight.followers[..i] + [flight.followers[i]];
        ElementsSnoc(flight.followers[..i], flight.followers[i]);
        requestFlightIds := requestFlightIds - {flight.followers[i]};
      }
      assert flight.followers[..|flight.followers|] == flight.followers;
    }

    method ReleaseFollowersOf(f: FlightId, leaderActive: bool) returns (runnable: seq<RequestId>)
      requires f in flights
      modifies this
      ensures FlightStep(Value(), Done(runnable)) == ReleaseFollowers(old(Value()), f, leaderActive)
    {
      var flight := TakeFlight(f);
      if leaderActive { releasedRequestIds := releasedRequestIds + {flight.leader}; }
      ghost var taken := Value();
      for i := 0 to |flight.followers|
        invariant Value() == taken.(released := taken.released + Elements(flight.followers[..i]))
      {
        assert flight.followers[..i + 1] == flight.followers[..i] + [flight.followers[i]];
        ElementsSnoc(flight.followers[..i], flight.followers[i]);
        releasedRequestIds := releasedRequestIds + {flight.followers[i]};
      }
      assert flight.followers[..|flight.followers|] == flight.followers;
      runnable := flight.followers;
    }

    /** Releases a leader's followers after its prefix was published. */
    method ReleaseAfterPrefixPublication(r: RequestId) returns (runnable: Outcome<seq<RequestId>>)
      requires Valid()
      modifies this
      ensures Valid() && FlightStep(Value(), runnable) == ReleaseAfterPublication(old(Value()), r)
    {
      hide FlightsOk;
      ReleaseExact(Value(), r);
      if !untilPublished { return Done([]); }
      RegisteredFlight(Value(), r);
      if r !in requestFlightIds { return Refused(NotRegistered); }
      var f := requestFlightIds[r];
      if flights[f].leader != r { return Refused(FollowerCannotPublish); }
      var ids := ReleaseFollowersOf(f, true);
      runnable := Done(ids);
    }

    /** Removes a terminated request and returns the requests that became runnable. */
    method RemoveRequest(r: RequestId, how: Termination) returns (runnable: Outcome<seq<RequestId>>)
      requires Valid()
      modifies this
      ensures Valid() && FlightStep(Value(), runnable) == Remove(old(Value()), r, how)
    {
      hide FlightsOk;
      RemoveExact(Value(), r, how);
      if r in releasedRequestIds {
        releasedRequestIds := releasedRequestIds - {r};
        return Done([]);
      }
      RegisteredFlight(Value(), r);
      if r !in requestFlightIds { return Refused(NotRegistered); }
      var f := requestFlightIds[r];
      var flight := flights[f];
      if flight.leader == r {
        if how == Completed {
          var ids := ReleaseFollowersOf(f, false);
          return Done(ids);
        }
        if flight.followers == [] {
          var _ := TakeFlight(f);
          return Done([]);
        }
        flights := flights[f := Flight(flight.input, flight.followers[0], flight.followers[1..])];
        requestFlightIds := requestFlightIds - {r};
        return Done([flight.followers[0]]);
      }
      if how == Completed { return Refused(FollowerCannotComplete); }
      var i := 0;
      while flight.followers[i] != r
        invariant i < |flight.followers| && forall j :: 0 <= j < i ==> flight.followers[j] != r
        decreases |flight.followers| - i
      {
        i := i + 1;
      }
      WithoutAt(flight.followers, r, i);
      flights := flights[f := flight.(followers := flight.followers[..i] + flight.followers[i + 1..])];
      requestFlightIds := requestFlightIds - {r};
      runnable := Done([]);
    }

    /** Whether the request leads a flight that is released after publication. */
    predicate MustPublish(r: RequestId): (b: bool)
      requires Valid()
      reads this
      ensures b == RequiresPublication(Value(), r)
    {
      if !untilPublished || r !in requestFlightIds then false
      else RegisteredFlight(Value(), r); flights[requestFlightIds[r]].leader == r
    }
  }

  lemma IndexedInputs(s: Flights)
    requires FlightsOk(s)
    ensures forall i :: i in s.byInput ==> s.byInput[i] in s.flights
  {
  }

  lemma RegisteredFlight(s: Flights, r: RequestId)
    requires FlightsOk(s)
    ensures r in s.flightOf ==> s.flightOf[r] in s.flights && IsMember(s.flights[s.flightOf[r]], r)
  {
    if r in s.flightOf { assert Registered(s, r); }
  }
}
