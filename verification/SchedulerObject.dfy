/** The scheduler as the object the worker drives. Each method computes the scheduler function of the
    same purpose on the object's value. */
module SchedulerObject {
  import opened Common
  import opened Arithmetic
  import opened PrefixCacheFlight
  import opened PrefixCacheFlightObject
  import opened SchedulerSpec
  import opened SchedulingDecision

  class Scheduler {
    const config: Config
    const coordinator: PrefixCacheFlightCoordinator?
    var queued: seq<Request>
    var active: seq<Request>
    var nextPrefill: Option<RequestId>

    ghost function Footprint(): set<object> {
      {this} + (if coordinator == null then {} else {coordinator})
    }

    ghost function Value(): State
      reads Footprint()
    {
      State(queued, active, nextPrefill, if coordinator == null then None else Some(coordinator.Value()))
    }

    ghost predicate Valid()
      reads Footprint()
    {
      config.pageTokens > 0 && (coordinator != null ==> coordinator.Valid())
    }

    constructor (cfg: Config, coordinated: bool, untilPublished: bool)
      requires cfg.pageTokens > 0
      ensures Valid() && config == cfg && fresh(Footprint())
      ensures Value().queue == [] && Value().active == [] && Value().next == None
      ensures Value().coordination.Some? <==> coordinated
      ensures coordinated ==> Empty(Value().coordination.value)
    {
      config := cfg;
      queued, active, nextPrefill := [], [], None;
      if coordinated {
        coordinator := new PrefixCacheFlightCoordinator(untilPublished);
      } else {
        coordinator := null;
      }
    }

    method EnqueueRequest(id: RequestId, input: seq<Token>, maxNew: nat, cached: nat) returns (error: Option<SchedulerError>)
      requires Valid() && |input| + maxNew > 0
      modifies Footprint()
      ensures Valid() && (Value(), error) == Enqueue(config, old(Value()), id, input, maxNew, cached)
    {
      hide FlightsOk, Add;
      var blocked := false;
      if coordinator != null {
        var admission := coordinator.AddRequest(id, input);
        if admission.Refused? {
          RefusedAddChangesNothing(old(Value()).coordination.value, id, input);
          return Some(FlightRefused(admission.error));
        }
        blocked := admission == Done(Follower);
      }
      queued := queued + [Request(id, CeilDiv(CachedDemand(|input|, maxNew), config.pageTokens), maxNew,
                                  Min(cached, Max(|input| - 1, 0)), 0, Prefill(|input|), blocked)];
      error := None;
    }

    /** Nothing is queued or active. */
    method IsVacant() returns (vacant: bool)
      ensures vacant <==> queued == [] && active == []
    {
      vacant := queued == [] && active == [];
    }

    /** Admits queued requests in policy order while slots and pages remain. */
    method AdmitQueuedRequests() returns (admitted: seq<RequestId>)
      requires Valid()
      modifies this`queued, this`active
      ensures Valid() && (Value(), admitted) == Admit(config, old(Value()))
    {
      admitted := [];
      if |active| >= config.maxActive { return; }
      var order := PolicyOrder(config.policy, queued);
      var reserved := ReservedPages();
      var available: nat := Max(config.PageCapacity() - reserved, 0);
      queued := [];
      assert order[0..] == order;
      var i := 0;
      while i < |order|
        invariant i <= |order|
        invariant AdmitFrom(config.maxActive, order[i..], queued, active, available, admitted) ==
                  AdmitFrom(config.maxActive, order, [], old(active), Unreserved(config, old(active)), [])
        decreases |order| - i
      {
        assert order[i..][1..] == order[i + 1..];
        if order[i].blocked {
          queued := queued + [order[i]];
        } else if |active| >= config.maxActive || order[i].maxPages > available {
          queued := queued + order[i..];
          return;
        } else {
          available := available - order[i].maxPages;
          admitted := admitted + [order[i].id];
          active := active + [order[i]];
        }
        i := i + 1;
      }
    }

    method ReservedPages() returns (sum: nat)
      ensures sum == SumPages(active)
    {
      sum := 0;
      for i := 0 to |active|
        invariant sum == SumPages(active[..i])
      {
        assert active[..i + 1][..i] == active[..i];
        sum := sum + active[i].maxPages;
      }
      assert active[..|active|] == active;
    }

    /** The index of an active request. */
    method FindActive(id: RequestId) returns (k: Option<nat>)
      ensures k == Position(active, id)
    {
      var i := 0;
      while i < |active|
        invariant i <= |active| && PositionFrom(active, id, i) == Position(active, id)
        decreases |active| - i
      {
        if active[i].id == id { return Some(i); }
        i := i + 1;
      }
      k := None;
    }

    /** Follows a request's phase; reports whether its prefix must be published before its flight is
        released. */
    method UpdateRequestPhase(id: RequestId, phase: GenerationPhase) returns (r: PhaseResult)
      requires Valid()
      modifies this`active
      ensures Valid() && (Value(), r) == UpdatePhase(old(Value()), id, phase)
    {
      hide FlightsOk;
      var k := FindActive(id);
      PositionFound(active, id, 0);
      if k.None? { return PhaseError(ActiveRequestMissing); }
      var before := active[k.value];
      match phase
      case FinishedPhase =>
        active := active[..k.value] + active[k.value + 1..];
        r := PhaseOk(false);
      case PrefillPhase(n) =>
        if before.phase.Decode? { return PhaseError(DecodeBackToPrefill); }
        active := active[k.value := before.(phase := Prefill(n))];
        r := PhaseOk(false);
      case DecodePhase(n) =>
        active := active[k.value := before.(generated := n, phase := Decode)];
        var publish := false;
        if before.phase.Prefill? && coordinator != null { publish := coordinator.MustPublish(id); }
        r := PhaseOk(publish);
    }

    method RemoveActiveRequest(id: RequestId) returns (error: Option<SchedulerError>)
      requires Valid()
      modifies this`active
      ensures Valid() && (Value(), error) == RemoveActive(old(Value()), id)
    {
      var k := FindActive(id);
      PositionFound(active, id, 0);
      if k.None? { return Some(ActiveRequestMissing); }
      active := active[..k.value] + active[k.value + 1..];
      error := None;
    }

    method UnblockRequests(ids: seq<RequestId>) returns (error: Option<SchedulerError>)
      modifies this`queued
      ensures (queued, error) == Unblock(old(queued), ids)
    {
      assert ids[0..] == ids;
      for n := 0 to |ids|
        invariant Unblock(queued, ids[n..]) == Unblock(old(queued), ids)
      {
        assert ids[n..][1..] == ids[n + 1..];
        var i := 0;
        PositionFound(queued, ids[n], 0);
        while i < |queued| && queued[i].id != ids[n]
          invariant i <= |queued| && PositionFrom(queued, ids[n], i) == Position(queued, ids[n])
          decreases |queued| - i
        {
          i := i + 1;
        }
        if i == |queued| { return Some(QueuedRequestMissing); }
        if !queued[i].blocked { return Some(NotBlocked); }
        queued := queued[i := queued[i].(blocked := false)];
      }
      error := None;
    }

    /** `complete_request` and `abort_request`. */
    method TerminateRequest(id: RequestId, how: Termination) returns (error: Option<SchedulerError>)
      requires Valid()
      modifies Footprint()
      ensures Valid() && (Value(), error) == Terminate(old(Value()), id, how)
    {
      hide FlightsOk, Remove;
      if coordinator == null { return None; }
      var runnable := coordinator.RemoveRequest(id, how);
      match runnable
      case Refused(e) => error := Some(FlightRefused(e));
      case Done(ids) => error := UnblockRequests(ids);
    }

    /** Makes the followers of a leader runnable once its prefix is published. */
    method ReleasePrefixFlight(id: RequestId) returns (error: Option<SchedulerError>)
      requires Valid()
      modifies Footprint()
      ensures Valid() && (Value(), error) == SchedulerSpec.ReleasePrefixFlight(old(Value()), id)
    {
      hide FlightsOk, ReleaseAfterPublication;
      if coordinator == null { return None; }
      var runnable := coordinator.ReleaseAfterPrefixPublication(id);
      match runnable
      case Refused(e) => error := Some(FlightRefused(e));
      case Done(ids) => error := UnblockRequests(ids);
    }

    method ScheduleActiveDecodes(budget: nat) returns (grants: seq<Grant>)
      ensures grants == ScheduleDecodes(active, budget)
    {
      grants := [];
      var left: nat := budget;
      assert active[0..] == active;
      for i := 0 to |active|
        invariant grants + ScheduleDecodes(active[i..], left) == ScheduleDecodes(active, budget)
      {
        assert active[i..][1..] == active[i + 1..];
        if left == 0 { return; }
        if active[i].phase.Decode? {
          grants := grants + [Grant(active[i].id, 1)];
          left := left - 1;
        }
      }
    }

    method ScheduleOrderedPrefills(prefills: seq<PrefillWork>, budget: nat) returns (grants: seq<Grant>)
      ensures grants == SchedulePrefills(prefills, budget)
    {
      grants := [];
      var left: nat := budget;
      assert prefills[0..] == prefills;
      for i := 0 to |prefills|
        invariant grants + SchedulePrefills(prefills[i..], left) == SchedulePrefills(prefills, budget)
      {
        assert prefills[i..][1..] == prefills[i + 1..];
        if left == 0 { return; }
        var n: nat := Min(prefills[i].remaining, left);
        grants := grants + [Grant(prefills[i].id, n)];
        left := left - n;
      }
    }

    /** Allocates the next model batch. */
    method CreateSchedulingDecision() returns (grants: seq<Grant>)
      requires Valid()
      modifies this`nextPrefill
      ensures Valid() && (Value(), grants) == Decide(config, old(Value()))
    {
      var decodes := ScheduleActiveDecodes(config.maxBatchedTokens);
      DecodesWithinBudget(active, config.maxBatchedTokens);
      var ordered := OrderPrefills(config.policy, Prefills(active), nextPrefill);
      var prefills := ScheduleOrderedPrefills(ordered, config.maxBatchedTokens - |decodes|);
      nextPrefill := NextCursor(config.policy, ordered, prefills, nextPrefill);
      grants := decodes + prefills;
    }
  }

  lemma RefusedAddChangesNothing(f: Flights, id: RequestId, input: seq<Token>)
    requires Add(f, id, input).admission.Refused?
    ensures Add(f, id, input).flights == f
  {
  }
}
