/** The orchestrator's routing state, the reservations it hands out, and a worker's publisher, as the
    objects that are updated in place. Each method runs under the routing state's lock. */
module RoutingObject {
  import opened Common
  import opened RoutingSpec

  class OrchestratorRoutingState {
    var selectionEpoch: nat
    var backends: seq<Backend>

    function Value(): RoutingState
      reads this
    {
      RoutingState(selectionEpoch, backends)
    }

    constructor (backendCount: nat)
      ensures |backends| == backendCount && EpochsOk(Value())
      ensures forall b :: 0 <= b < backendCount ==> backends[b].reserved == NO_LOAD
    {
      selectionEpoch := 0;
      backends := seq(backendCount, _ => Backend(NO_LOAD, 0));
    }

    method RecordBackendSelection(b: nat)
      requires b < |backends|
      modifies this
      ensures Value() == RecordSelection(old(Value()), b)
    {
      selectionEpoch := selectionEpoch + 1;
      backends := backends[b := backends[b].(lastSelected := selectionEpoch)];
    }

    method ReserveLoad(b: nat, load: Load)
      requires b < |backends|
      modifies this`backends
      ensures Value() == Reserve(old(Value()), b, load)
    {
      var r := backends[b].reserved;
      backends := backends[b := backends[b].(reserved := Load(r.requests + load.requests, r.prefill + load.prefill,
                                                              r.cached + load.cached, r.output + load.output))];
    }

    /** A release of more than is reserved would be a panic. */
    method ReleaseLoad(b: nat, load: Load)
      requires b < |backends| && Within(load, backends[b].reserved)
      modifies this`backends
      ensures Value() == Release(old(Value()), b, load)
    {
      var r := backends[b].reserved;
      backends := backends[b := backends[b].(reserved := Load(r.requests - load.requests, r.prefill - load.prefill,
                                                              r.cached - load.cached, r.output - load.output))];
    }

    /** Selects the overridden backend, or the one with the best score that was selected longest ago. */
    method RouteByScore(override: Option<nat>, scores: seq<int>) returns (b: nat)
      requires 0 < |backends| == |scores| && (override.Some? ==> override.value < |scores|)
      modifies this
      ensures (Value(), b) == old(SelectionOf(override, scores))
      ensures b < |scores| && (override.None? ==> IsBest(old(Value()), scores, |scores|, b)) && (override.Some? ==> b == override.value)
      ensures backends == old(backends)[b := old(backends)[b].(lastSelected := selectionEpoch)] && selectionEpoch == old(selectionEpoch) + 1
      ensures old(EpochsOk(Value())) ==> EpochsOk(Value())
    {
      if override.Some? {
        b := override.value;
      } else {
        b := 0;
        for n := 1 to |scores|
          invariant b == Best(Value(), scores, n)
        {
          if scores[n] < scores[b] || (scores[n] == scores[b] && backends[n].lastSelected < backends[b].lastSelected) { b := n; }
        }
        BestExact(Value(), scores, |scores|);
      }
      RecordBackendSelection(b);
    }

    function SelectionOf(override: Option<nat>, scores: seq<int>): (RoutingState, nat)
      requires 0 < |backends| == |scores| && (override.Some? ==> override.value < |scores|)
      reads this
    {
      RoutingSpec.RouteByScore(Value(), override, scores)
    }

    /** Selects a backend and reserves the request's load there. `cached` is each backend's estimate. */
    method RouteRequest(override: Option<nat>, scores: seq<int>, cached: seq<nat>, inputCount: nat, maxNew: nat)
      returns (reservation: RoutingReservation)
      requires 0 < |backends| == |scores| == |cached| && (override.Some? ==> override.value < |scores|)
      modifies this
      ensures fresh(reservation) && reservation.state == this
      ensures var (s, b) := old(SelectionOf(override, scores));
              && reservation.backend == b < |cached|
              && reservation.load == Some(RequestLoad(inputCount, cached[b], maxNew))
              && Value() == Reserve(s, b, RequestLoad(inputCount, cached[b], maxNew))
    {
      var b := RouteByScore(override, scores);
      var load := Load(1, inputCount, Min(cached[b], inputCount), maxNew);
      ReserveLoad(b, load);
      reservation := new RoutingReservation(this, b, load);
    }
  }

  /** A worker's side of the operational-state channel. */
  class OperationalStatePublisher {
    var epoch: nat
    var published: Snapshot

    constructor ()
      ensures epoch == 0 && published == Snapshot(0, 0, 0, 0, 0, 0, 0)
    {
      epoch, published := 0, Snapshot(0, 0, 0, 0, 0, 0, 0);
    }

    method Publish(snapshot: Snapshot)
      modifies this
      ensures published == snapshot && epoch == old(epoch) + 1
    {
      epoch, published := epoch + 1, snapshot;
    }
  }

  class RoutingReservation {
    const state: OrchestratorRoutingState
    const backend: nat
    var load: Option<Load>

    constructor (routing: OrchestratorRoutingState, b: nat, reserved: Load)
      ensures state == routing && backend == b && load == Some(reserved)
    {
      state, backend, load := routing, b, Some(reserved);
    }

    /** What is still reserved is covered by its backend's reserved load. */
    predicate Covered()
      reads this, state
    {
      backend < |state.backends| && (load.Some? ==> Within(load.value, state.backends[backend].reserved))
    }

    /** Publishes the worker's snapshot and releases the reservation in one step. A router sees the
        snapshot with the remaining reserved load. */
    method ReleaseAfter(publisher: OperationalStatePublisher, snapshot: Snapshot)
      requires load.Some? && Covered()
      modifies this, state`backends, publisher
      ensures load == None && publisher.published == snapshot
      ensures state.Value() == Release(old(state.Value()), backend, old(load).value)
      ensures Plus(state.backends[backend].reserved, old(load).value) == old(state.backends[backend].reserved)
    {
      var released := load.value;
      load := None;
      publisher.Publish(snapshot);
      state.ReleaseLoad(backend, released);
    }

    /** Releases what was not released yet; dropping a released reservation changes nothing. */
    method Drop()
      requires Covered()
      modifies this, state`backends
      ensures load == None
      ensures state.Value() == if old(load).Some? then Release(old(state.Value()), backend, old(load).value) else old(state.Value())
    {
      if load.None? { return; }
      var released := load.value;
      load := None;
      state.ReleaseLoad(backend, released);
    }
  }
}
