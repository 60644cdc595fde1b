/** The scheduler and the flight coordinator together, over whole runs: reservations stay within the
    page capacity, a queued request waits exactly while it follows a leader, waking never fails, and
    the queue cannot get stuck. */
module SchedulerRuns {
  import opened Common
  import opened Arithmetic
  import opened PrefixCacheFlight
  import opened SchedulerSpec

  /** The scheduler, and the requests that left it but whose termination is not reported yet. */
  datatype Tracked = Tracked(s: State, departed: set<RequestId>)

  ghost predicate Holds(s: seq<Request>, id: RequestId) { exists i :: 0 <= i < |s| && s[i].id == id }

  ghost predicate InPlay(t: Tracked, id: RequestId) {
    Holds(t.s.queue, id) || Holds(t.s.active, id) || id in t.departed
  }

  ghost predicate IdsDistinct(s: seq<Request>) {
    forall i, j :: 0 <= i < j < |s| ==> s[i].id != s[j].id
  }

  /** Each request is in one place only. */
  ghost predicate PlacesDisjoint(t: Tracked) {
    && IdsDistinct(t.s.queue) && IdsDistinct(t.s.active)
    && (forall id :: Holds(t.s.queue, id) ==> !Holds(t.s.active, id) && id !in t.departed)
    && (forall id :: Holds(t.s.active, id) ==> id !in t.departed)
  }

  ghost predicate QueueOk(cfg: Config, queue: seq<Request>)
    requires cfg.pageTokens > 0
  {
    forall i :: 0 <= i < |queue| ==> queue[i].maxPages <= cfg.PageCapacity() && queue[i].phase.Prefill?
  }

  /** The coordinator knows exactly the requests in play, and exactly the followers are blocked. */
  ghost predicate Coordinated(t: Tracked) {
    match t.s.coordination
    case None => forall i :: 0 <= i < |t.s.queue| ==> !t.s.queue[i].blocked
    case Some(f) =>
      && FlightsOk(f)
      && (forall id :: IsKnown(f, id) <==> InPlay(t, id))
      && (forall i :: 0 <= i < |t.s.queue| ==> (t.s.queue[i].blocked <==> IsFollower(f, t.s.queue[i].id)))
      && (forall id :: IsFollower(f, id) ==> Holds(t.s.queue, id))
  }

  ghost predicate SchedulerOk(cfg: Config, t: Tracked) {
    && cfg.pageTokens > 0 && cfg.maxActive > 0
    && PlacesDisjoint(t) && QueueOk(cfg, t.s.queue) && Coordinated(t)
    && SumPages(t.s.active) <= cfg.PageCapacity() && |t.s.active| <= cfg.maxActive
  }

  datatype SchedulerOp =
    | EnqueueOp(id: RequestId, input: seq<Token>, maxNew: nat, cached: nat)
    | AdmitOp
    | PhaseOp(id: RequestId, phase: GenerationPhase)
    | RemoveActiveOp(id: RequestId)
    | TerminateOp(id: RequestId, how: Termination)
    | ReleaseFlightOp(id: RequestId)

  /** What the worker may do: it enqueues normalized requests under new ids, updates active ones without
      going back from decode to prefill, reports the end of a request once after taking it out, and
      reports the publication of a leader that is running. */
  ghost predicate Allowed(cfg: Config, t: Tracked, op: SchedulerOp) {
    match op
    case EnqueueOp(id, input, maxNew, _) =>
      !InPlay(t, id) && input != [] && maxNew > 0 && cfg.pageTokens > 0 &&
      CeilDiv(CachedDemand(|input|, maxNew), cfg.pageTokens) <= cfg.PageCapacity()
    case AdmitOp => true
    case PhaseOp(id, phase) =>
      exists i :: 0 <= i < |t.s.active| && t.s.active[i].id == id && (phase.PrefillPhase? ==> t.s.active[i].phase.Prefill?)
    case RemoveActiveOp(id) => Holds(t.s.active, id)
    case TerminateOp(id, _) => id in t.departed
    case ReleaseFlightOp(id) =>
      Holds(t.s.active, id) && (t.s.coordination.Some? && t.s.coordination.value.untilPublished ==> IsLeader(t.s.coordination.value, id))
  }

  datatype Outcome = Outcome(t: Tracked, error: Option<SchedulerError>)

  ghost function After(cfg: Config, t: Tracked, op: SchedulerOp): Outcome
    requires cfg.pageTokens > 0 && Allowed(cfg, t, op)
  {
    match op
    case EnqueueOp(id, input, maxNew, cached) =>
      var (s, e) := Enqueue(cfg, t.s, id, input, maxNew, cached);
      Outcome(Tracked(s, t.departed), e)
    case AdmitOp => Outcome(Tracked(Admit(cfg, t.s).0, t.departed), None)
    case PhaseOp(id, phase) =>
      var (s, r) := UpdatePhase(t.s, id, phase);
      Outcome(Tracked(s, if phase.FinishedPhase? then t.departed + {id} else t.departed), if r.PhaseError? then Some(r.error) else None)
    case RemoveActiveOp(id) =>
      var (s, e) := RemoveActive(t.s, id);
      Outcome(Tracked(s, t.departed + {id}), e)
    case TerminateOp(id, how) =>
      var (s, e) := Terminate(t.s, id, how);
      Outcome(Tracked(s, t.departed - {id}), e)
    case ReleaseFlightOp(id) =>
      var (s, e) := ReleasePrefixFlight(t.s, id);
      Outcome(Tracked(s, t.departed), e)
  }

  // ---- Waking ---------------------------------------------------------------------------------

  /** The queue with the listed requests unblocked. */
  function Awake(queue: seq<Request>, ids: seq<RequestId>): (r: seq<Request>)
    ensures |r| == |queue|
  {
    seq(|queue|, i requires 0 <= i < |queue| => if queue[i].id in ids then queue[i].(blocked := false) else queue[i])
  }

  lemma {:induction false} UnblockExact(queue: seq<Request>, ids: seq<RequestId>)
    requires IdsDistinct(queue) && Distinct(ids)
    requires forall id :: id in ids ==> exists i :: 0 <= i < |queue| && queue[i].id == id && queue[i].blocked
    ensures Unblock(queue, ids) == (Awake(queue, ids), None)
    decreases |ids|
  {
    if ids == [] {
      assert Awake(queue, ids) == queue;
    } else {
      PositionFound(queue, ids[0], 0);
      assert ids[0] in ids;
      var i :| 0 <= i < |queue| && queue[i].id == ids[0] && queue[i].blocked;
      var k := Position(queue, ids[0]).value;
      assert k == i;
      var rest, next := ids[1..], queue[k := queue[k].(blocked := false)];
      assert ids == [ids[0]] + rest;
      assert Distinct(rest) by { forall a, b | 0 <= a < b < |rest| ensures rest[a] != rest[b] { assert ids[a + 1] != ids[b + 1]; } }
      forall id | id in rest
        ensures exists j :: 0 <= j < |next| && next[j].id == id && next[j].blocked
      {
        var a :| 0 <= a < |rest| && rest[a] == id;
        assert ids[a + 1] == id && ids[a + 1] != ids[0] && id in ids;
        var j :| 0 <= j < |queue| && queue[j].id == id && queue[j].blocked;
        assert next[j] == queue[j];
      }
      UnblockExact(next, rest);
      assert Awake(next, rest) == Awake(queue, ids);
    }
  }

  /** When the coordinator wakes requests, every one of them is queued and blocked, so waking succeeds
      and the agreement holds again. */
  lemma WakeExact(cfg: Config, t: Tracked, step: FlightStep, gone: set<RequestId>)
    requires SchedulerOk(cfg, t) && t.s.coordination.Some? && step.runnable.Done? && FlightsOk(step.flights)
    requires WakesExactly(t.s.coordination.value, step.flights, step.runnable.value, gone) && gone <= t.departed
    ensures var (s', error) := Wake(t.s, step);
            error == None && SchedulerOk(cfg, Tracked(s', t.departed - gone))
  {
    hide FlightsOk, IsFollower, IsKnown;
    var f, ids := t.s.coordination.value, step.runnable.value;
    forall id | id in ids
      ensures exists i :: 0 <= i < |t.s.queue| && t.s.queue[i].id == id && t.s.queue[i].blocked
    {
      assert Holds(t.s.queue, id);
    }
    UnblockExact(t.s.queue, ids);
    var t' := Tracked(Wake(t.s, step).0, t.departed - gone);
    AwakePlaces(cfg, t, t', ids);
    AwakeCoordinated(t, t', step, gone);
  }

  lemma AwakePlaces(cfg: Config, t: Tracked, t': Tracked, ids: seq<RequestId>)
    requires cfg.pageTokens > 0 && PlacesDisjoint(t) && QueueOk(cfg, t.s.queue)
    requires t'.s.queue == Awake(t.s.queue, ids) && t'.s.active == t.s.active && t'.departed <= t.departed
    ensures PlacesDisjoint(t') && QueueOk(cfg, t'.s.queue)
    ensures forall id :: Holds(t'.s.queue, id) <==> Holds(t.s.queue, id)
  {
    assert forall i :: 0 <= i < |t.s.queue| ==> t'.s.queue[i].id == t.s.queue[i].id;
    forall id ensures Holds(t'.s.queue, id) <==> Holds(t.s.queue, id) {
      if i :| 0 <= i < |t.s.queue| && t.s.queue[i].id == id { assert t'.s.queue[i].id == id; }
      if i :| 0 <= i < |t'.s.queue| && t'.s.queue[i].id == id { assert t.s.queue[i].id == id; }
    }
  }

  lemma AwakeCoordinated(t: Tracked, t': Tracked, step: FlightStep, gone: set<RequestId>)
    requires PlacesDisjoint(t) && Coordinated(t) && t.s.coordination.Some? && step.runnable.Done? && FlightsOk(step.flights)
    requires WakesExactly(t.s.coordination.value, step.flights, step.runnable.value, gone) && gone <= t.departed
    requires t'.s == t.s.(queue := Awake(t.s.queue, step.runnable.value), coordination := Some(step.flights))
    requires t'.departed == t.departed - gone
    requires forall id :: Holds(t'.s.queue, id) <==> Holds(t.s.queue, id)
    ensures Coordinated(t')
  {
    hide FlightsOk, IsFollower, IsKnown;
    var f, f', ids := t.s.coordination.value, step.flights, step.runnable.value;
    forall id ensures IsKnown(f', id) <==> InPlay(t', id) {
      assert IsKnown(f, id) <==> InPlay(t, id);
      if id in gone { assert !Holds(t.s.queue, id) && !Holds(t.s.active, id); }
    }
    forall i | 0 <= i < |t'.s.queue| ensures t'.s.queue[i].blocked <==> IsFollower(f', t'.s.queue[i].id) {
      assert t'.s.queue[i].id == t.s.queue[i].id && Holds(t.s.queue, t.s.queue[i].id);
      assert t.s.queue[i].blocked <==> IsFollower(f, t.s.queue[i].id);
      if t.s.queue[i].id in ids { assert !IsFollower(f', t.s.queue[i].id); }
    }
    forall id | IsFollower(f', id) ensures Holds(t'.s.queue, id) {
      if id in gone { FollowerKnown(f', id); } else if id !in ids { assert IsFollower(f, id); }
    }
  }

  lemma FollowerKnown(f: Flights, id: RequestId)
    requires IsFollower(f, id)
    ensures IsKnown(f, id)
  {
  }

  // ---- The steps ------------------------------------------------------------------------------

  lemma EnqueueKeepsOk(cfg: Config, t: Tracked, id: RequestId, input: seq<Token>, maxNew: nat, cached: nat)
    requires SchedulerOk(cfg, t) && Allowed(cfg, t, EnqueueOp(id, input, maxNew, cached))
    ensures var (s', error) := Enqueue(cfg, t.s, id, input, maxNew, cached);
            error == None && SchedulerOk(cfg, Tracked(s', t.departed))
  {
    hide FlightsOk, IsFollower, IsKnown, Add, IsLeader;
    var (s', error) := Enqueue(cfg, t.s, id, input, maxNew, cached);
    var t' := Tracked(s', t.departed);
    if t.s.coordination.Some? { AddExact(t.s.coordination.value, id, input); }
    assert t'.s.queue == t.s.queue + [Last(t'.s.queue)] && Last(t'.s.queue).id == id;
    assert Last(t'.s.queue) == t'.s.queue[|t.s.queue|];
    forall x ensures Holds(t'.s.queue, x) <==> Holds(t.s.queue, x) || x == id {
      if i :| 0 <= i < |t.s.queue| && t.s.queue[i].id == x { assert t'.s.queue[i].id == x; }
      assert t'.s.queue[|t.s.queue|].id == id;
    }
    assert !Holds(t.s.queue, id);
    if t.s.coordination.Some? { EnqueueCoordinated(t, t', id, input); }
  }

  lemma EnqueueCoordinated(t: Tracked, t': Tracked, id: RequestId, input: seq<Token>)
    requires PlacesDisjoint(t) && Coordinated(t) && t.s.coordination.Some? && !InPlay(t, id)
    requires var added := Add(t.s.coordination.value, id, input);
             && t'.s.coordination == Some(added.flights) && t'.s.active == t.s.active && t'.departed == t.departed
             && |t'.s.queue| == |t.s.queue| + 1 && t'.s.queue[..|t.s.queue|] == t.s.queue
             && t'.s.queue[|t.s.queue|].id == id && t'.s.queue[|t.s.queue|].blocked == (added.admission == Done(Follower))
    requires forall x :: Holds(t'.s.queue, x) <==> Holds(t.s.queue, x) || x == id
    ensures Coordinated(t')
  {
    hide FlightsOk, IsFollower, IsKnown, Add, IsLeader;
    var f := t.s.coordination.value;
    AddExact(f, id, input);
    var f' := Add(f, id, input).flights;
    forall x ensures IsKnown(f', x) <==> InPlay(t', x) { assert IsKnown(f, x) <==> InPlay(t, x); }
    forall i | 0 <= i < |t'.s.queue| ensures t'.s.queue[i].blocked <==> IsFollower(f', t'.s.queue[i].id) {
      if i < |t.s.queue| {
        assert t'.s.queue[i] == t'.s.queue[..|t.s.queue|][i] && Holds(t.s.queue, t.s.queue[i].id);
      }
    }
    forall x | IsFollower(f', x) ensures Holds(t'.s.queue, x) {
      if x != id { assert IsFollower(f, x); }
    }
  }

  /** Moving requests between queue and active keeps every id in one place. */
  lemma AdmitKeepsOk(cfg: Config, t: Tracked)
    requires SchedulerOk(cfg, t)
    ensures SchedulerOk(cfg, Tracked(Admit(cfg, t.s).0, t.departed))
  {
    hide LongestFitting, Unblocked, Blocked, PolicyOrder, AdmitFrom, Unreserved, FlightsOk, IsFollower, IsKnown, Admit, SumPages;
    var n := AdmitExact(cfg, t.s);
    var s' := Admit(cfg, t.s).0;
    if |t.s.active| < cfg.maxActive {
      var u := Unblocked(PolicyOrder(cfg.policy, t.s.queue));
      Fits(u, cfg.maxActive - |t.s.active|, Unreserved(cfg, t.s.active), n);
      AdmittedUnblocked(cfg.policy, t.s.queue, n);
      MovedPlaces(t, s', u[..n]);
      MovedQueue(cfg, t, s', u[..n]);
      assert Coordinated(Tracked(s', t.departed)) by { MovedCoordinated(t, s', u[..n]); }
    }
  }

  lemma AdmittedUnblocked(policy: Policy, queue: seq<Request>, n: nat)
    requires n <= |Unblocked(PolicyOrder(policy, queue))|
    ensures forall r :: r in Unblocked(PolicyOrder(policy, queue))[..n] ==> !r.blocked
  {
    FiltersPartition(PolicyOrder(policy, queue));
  }

  /** Ids are distinct in a concatenation exactly when no request repeats in the multiset. */
  lemma DistinctAsMultiset(a: seq<Request>, b: seq<Request>, c: seq<Request>, d: seq<Request>)
    requires multiset(a) + multiset(b) == multiset(c) + multiset(d)
    requires IdsDistinct(c) && IdsDistinct(d) && forall id :: Holds(c, id) ==> !Holds(d, id)
    ensures IdsDistinct(a) && IdsDistinct(b) && forall id :: Holds(a, id) ==> !Holds(b, id)
    ensures forall id :: Holds(a, id) || Holds(b, id) <==> Holds(c, id) || Holds(d, id)
  {
    var x, y := a + b, c + d;
    assert multiset(x) == multiset(y);
    assert IdsDistinct(y) by {
      forall i, j | 0 <= i < j < |y| ensures y[i].id != y[j].id {
        if i < |c| && j >= |c| { assert Holds(c, y[i].id) && Holds(d, d[j - |c|].id) && y[j] == d[j - |c|]; }
      }
    }
    PermutationDistinct(x, y);
    forall i, j | 0 <= i < j < |a| ensures a[i].id != a[j].id { assert x[i] == a[i] && x[j] == a[j]; }
    forall i, j | 0 <= i < j < |b| ensures b[i].id != b[j].id { assert x[|a| + i] == b[i] && x[|a| + j] == b[j]; }
    forall id | Holds(a, id) ensures !Holds(b, id) {
      var i :| 0 <= i < |a| && a[i].id == id;
      forall j | 0 <= j < |b| ensures b[j].id != id { assert x[i] == a[i] && x[|a| + j] == b[j]; }
    }
    forall id ensures Holds(a, id) || Holds(b, id) <==> Holds(c, id) || Holds(d, id) {
      HoldsConcat(a, b, id);
      HoldsConcat(c, d, id);
      HoldsPermuted(x, y, id);
      HoldsPermuted(y, x, id);
    }
  }

  lemma HoldsConcat(a: seq<Request>, b: seq<Request>, id: RequestId)
    ensures Holds(a + b, id) <==> Holds(a, id) || Holds(b, id)
  {
    if i :| 0 <= i < |a| && a[i].id == id { assert (a + b)[i].id == id; }
    if i :| 0 <= i < |b| && b[i].id == id { assert (a + b)[|a| + i].id == id; }
  }

  lemma HoldsPermuted(x: seq<Request>, y: seq<Request>, id: RequestId)
    requires multiset(x) == multiset(y)
    ensures Holds(x, id) ==> Holds(y, id)
  {
    if i :| 0 <= i < |x| && x[i].id == id {
      assert x[i] in multiset(x) && x[i] in multiset(y);
      var j :| 0 <= j < |y| && y[j] == x[i];
    }
  }

  lemma {:induction false} PermutationDistinct(x: seq<Request>, y: seq<Request>)
    requires multiset(x) == multiset(y) && IdsDistinct(y)
    ensures IdsDistinct(x)
    decreases |x|
  {
    if x != [] {
      var r := x[0];
      assert r in multiset(x) && r in multiset(y);
      var k :| 0 <= k < |y| && y[k] == r;
      var rest := Drop(y, k);
      DropExact(y, k);
      assert x == [r] + x[1..];
      assert multiset(x[1..]) == multiset(x) - multiset{r};
      PermutationDistinct(x[1..], rest);
      HeadApart(x, y, k);
    }
  }

  /** The sequence without position k. */
  function Drop(y: seq<Request>, k: nat): seq<Request>
    requires k < |y|
  {
    y[..k] + y[k + 1..]
  }

  lemma DropExact(y: seq<Request>, k: nat)
    requires k < |y|
    ensures multiset(Drop(y, k)) == multiset(y) - multiset{y[k]}
    ensures IdsDistinct(y) ==> IdsDistinct(Drop(y, k))
    ensures forall i :: 0 <= i < |Drop(y, k)| ==> Drop(y, k)[i] == y[if i < k then i else i + 1]
  {
    DropCounts(y, k);
    DropDistinct(y, k);
  }

  lemma DropCounts(y: seq<Request>, k: nat)
    requires k < |y|
    ensures multiset(Drop(y, k)) == multiset(y) - multiset{y[k]}
  {
    assert y == y[..k] + [y[k]] + y[k + 1..];
  }

  lemma DropDistinct(y: seq<Request>, k: nat)
    requires k < |y|
    ensures IdsDistinct(y) ==> IdsDistinct(Drop(y, k))
    ensures forall i :: 0 <= i < |Drop(y, k)| ==> Drop(y, k)[i] == y[if i < k then i else i + 1]
  {
  }

  lemma Cancel<T>(a: multiset<T>, b: multiset<T>, c: multiset<T>, d: multiset<T>)
    requires a + (b + c) == d + b
    ensures a + c == d
  {
    forall x ensures (a + c)[x] == d[x] { assert (a + (b + c))[x] == (d + b)[x]; }
  }

  lemma HeadApart(x: seq<Request>, y: seq<Request>, k: nat)
    requires x != [] && k < |y| && y[k] == x[0] && IdsDistinct(y) && IdsDistinct(x[1..])
    requires multiset(x[1..]) == multiset(Drop(y, k))
    ensures IdsDistinct(x)
  {
    var rest := Drop(y, k);
    DropExact(y, k);
    forall j | 0 < j < |x| ensures x[0].id != x[j].id {
      assert x[j] == x[1..][j - 1] && x[j] in multiset(x[1..]) && x[j] in multiset(rest);
      var i :| 0 <= i < |rest| && rest[i] == x[j];
      assert rest[i] == y[if i < k then i else i + 1];
    }
    forall i, j | 0 <= i < j < |x| ensures x[i].id != x[j].id {
      if i > 0 { assert x[i] == x[1..][i - 1] && x[j] == x[1..][j - 1]; }
    }
  }

  lemma MovedPlaces(t: Tracked, s': State, moved: seq<Request>)
    requires PlacesDisjoint(t) && multiset(s'.queue) + multiset(s'.active) == multiset(t.s.queue) + multiset(t.s.active)
    ensures PlacesDisjoint(Tracked(s', t.departed))
    ensures forall id :: InPlay(Tracked(s', t.departed), id) <==> InPlay(t, id)
  {
    hide Holds, IdsDistinct;
    DistinctAsMultiset(s'.queue, s'.active, t.s.queue, t.s.active);
  }

  lemma MovedQueue(cfg: Config, t: Tracked, s': State, moved: seq<Request>)
    requires cfg.pageTokens > 0 && QueueOk(cfg, t.s.queue)
    requires multiset(s'.queue) + multiset(s'.active) == multiset(t.s.queue) + multiset(t.s.active)
    requires s'.active == t.s.active + moved
    ensures QueueOk(cfg, s'.queue)
    ensures forall r :: r in s'.queue ==> r in t.s.queue
    ensures forall r :: r in t.s.queue ==> r in s'.queue || r in moved
  {
    assert multiset(s'.active) == multiset(t.s.active) + multiset(moved);
    Cancel(multiset(s'.queue), multiset(t.s.active), multiset(moved), multiset(t.s.queue));
    forall r | r in s'.queue ensures r in t.s.queue {
      assert r in multiset(s'.queue) && r in multiset(t.s.queue);
    }
    forall r | r in t.s.queue ensures r in s'.queue || r in moved {
      assert r in multiset(t.s.queue) && r in multiset(s'.queue) + multiset(moved);
    }
    forall i | 0 <= i < |s'.queue| ensures s'.queue[i].maxPages <= cfg.PageCapacity() && s'.queue[i].phase.Prefill? {
      assert s'.queue[i] in s'.queue && s'.queue[i] in t.s.queue;
    }
  }

  lemma MovedCoordinated(t: Tracked, s': State, moved: seq<Request>)
    requires PlacesDisjoint(t) && Coordinated(t)
    requires forall r :: r in s'.queue ==> r in t.s.queue
    requires forall id :: InPlay(Tracked(s', t.departed), id) <==> InPlay(t, id)
    requires forall r :: r in moved ==> !r.blocked
    requires forall r :: r in t.s.queue ==> r in s'.queue || r in moved
    requires s'.coordination == t.s.coordination
    ensures Coordinated(Tracked(s', t.departed))
  {
    hide FlightsOk, IsFollower, IsKnown;
    var t' := Tracked(s', t.departed);
    match t.s.coordination
    case None =>
      forall i | 0 <= i < |s'.queue| ensures !s'.queue[i].blocked { assert s'.queue[i] in t.s.queue; }
    case Some(f) =>
      forall id ensures IsKnown(f, id) <==> InPlay(t', id) { assert IsKnown(f, id) <==> InPlay(t, id); }
      forall i | 0 <= i < |s'.queue| ensures s'.queue[i].blocked <==> IsFollower(f, s'.queue[i].id) {
        assert s'.queue[i] in t.s.queue;
        var j :| 0 <= j < |t.s.queue| && t.s.queue[j] == s'.queue[i];
      }
      forall id | IsFollower(f, id) ensures Holds(s'.queue, id) {
        assert Holds(t.s.queue, id);
        var j :| 0 <= j < |t.s.queue| && t.s.queue[j].id == id;
        assert t.s.queue[j].blocked && t.s.queue[j] in t.s.queue && t.s.queue[j] in s'.queue;
        var i :| 0 <= i < |s'.queue| && s'.queue[i] == t.s.queue[j];
      }
  }

  /** Taking an active request out, or giving it a new phase, keeps everybody else where they are. */
  lemma LeaveKeepsOk(cfg: Config, t: Tracked, k: nat)
    requires SchedulerOk(cfg, t) && k < |t.s.active|
    ensures SchedulerOk(cfg, Tracked(t.s.(active := Drop(t.s.active, k)), t.departed + {t.s.active[k].id}))
  {
    hide FlightsOk, IsFollower, IsKnown;
    var id, active := t.s.active[k].id, Drop(t.s.active, k);
    var t' := Tracked(t.s.(active := active), t.departed + {id});
    DropExact(t.s.active, k);
    SumPagesDrop(t.s.active, k);
    assert Holds(t.s.active, id);
    forall x ensures Holds(active, x) <==> Holds(t.s.active, x) && x != id {
      if i :| 0 <= i < |active| && active[i].id == x { assert t.s.active[if i < k then i else i + 1].id == x; }
      if i :| 0 <= i < |t.s.active| && t.s.active[i].id == x && i != k { assert active[if i < k then i else i - 1].id == x; }
    }
    assert forall x :: InPlay(t', x) <==> InPlay(t, x);
    SameCoordination(t, t');
  }

  lemma SumPagesOne(r: Request)
    ensures SumPages([r]) == r.maxPages
  {
    assert [r][..0] == [];
  }

  lemma SumPagesDrop(s: seq<Request>, k: nat)
    requires k < |s|
    ensures SumPages(Drop(s, k)) + s[k].maxPages == SumPages(s)
  {
    hide SumPages;
    assert s == s[..k] + [s[k]] + s[k + 1..];
    SumPagesConcat(s[..k] + [s[k]], s[k + 1..]);
    SumPagesConcat(s[..k], [s[k]]);
    SumPagesConcat(s[..k], s[k + 1..]);
    SumPagesOne(s[k]);
  }

  lemma SameCoordination(t: Tracked, t': Tracked)
    requires Coordinated(t) && t'.s.queue == t.s.queue && t'.s.coordination == t.s.coordination
    requires forall x :: InPlay(t', x) <==> InPlay(t, x)
    ensures Coordinated(t')
  {
    hide FlightsOk, IsFollower, IsKnown, InPlay;
    if t.s.coordination.Some? {
      var f := t.s.coordination.value;
      forall id ensures IsKnown(f, id) <==> InPlay(t', id) { assert IsKnown(f, id) <==> InPlay(t, id); }
    }
  }

  lemma RephaseKeepsOk(cfg: Config, t: Tracked, k: nat, r: Request)
    requires SchedulerOk(cfg, t) && k < |t.s.active| && r.id == t.s.active[k].id && r.maxPages == t.s.active[k].maxPages
    ensures SchedulerOk(cfg, Tracked(t.s.(active := t.s.active[k := r]), t.departed))
  {
    hide FlightsOk, IsFollower, IsKnown;
    var active := t.s.active[k := r];
    var t' := Tracked(t.s.(active := active), t.departed);
    SumPagesUpdate(t.s.active, k, r);
    forall x ensures Holds(active, x) <==> Holds(t.s.active, x) {
      if i :| 0 <= i < |active| && active[i].id == x { assert t.s.active[i].id == x; }
      if i :| 0 <= i < |t.s.active| && t.s.active[i].id == x { assert active[i].id == x; }
    }
    assert forall x :: InPlay(t', x) <==> InPlay(t, x);
    SameCoordination(t, t');
  }

  lemma SumPagesUpdate(s: seq<Request>, k: nat, r: Request)
    requires k < |s| && r.maxPages == s[k].maxPages
    ensures SumPages(s[k := r]) == SumPages(s)
  {
    hide SumPages;
    assert s == s[..k] + [s[k]] + s[k + 1..] && s[k := r] == s[..k] + [r] + s[k + 1..];
    SumPagesConcat(s[..k] + [s[k]], s[k + 1..]);
    SumPagesConcat(s[..k], [s[k]]);
    SumPagesConcat(s[..k] + [r], s[k + 1..]);
    SumPagesConcat(s[..k], [r]);
    SumPagesOne(s[k]);
    SumPagesOne(r);
  }

  lemma PhaseKeepsOk(cfg: Config, t: Tracked, id: RequestId, phase: GenerationPhase)
    requires SchedulerOk(cfg, t) && Allowed(cfg, t, PhaseOp(id, phase))
    ensures var o := After(cfg, t, PhaseOp(id, phase));
            o.error == None && SchedulerOk(cfg, o.t)
  {
    hide FlightsOk, Coordinated, QueueOk;
    var i :| 0 <= i < |t.s.active| && t.s.active[i].id == id && (phase.PrefillPhase? ==> t.s.active[i].phase.Prefill?);
    PositionFound(t.s.active, id, 0);
    var k := Position(t.s.active, id).value;
    assert k == i by { assert IdsDistinct(t.s.active); }
    hide SchedulerOk;
    var after := After(cfg, t, PhaseOp(id, phase)).t.s;
    if phase.FinishedPhase? {
      LeaveKeepsOk(cfg, t, k);
    } else {
      RephaseKeepsOk(cfg, t, k, after.active[k]);
      assert after.active == t.s.active[k := after.active[k]];
    }
  }

  lemma RemoveActiveKeepsOk(cfg: Config, t: Tracked, id: RequestId)
    requires SchedulerOk(cfg, t) && Holds(t.s.active, id)
    ensures var (s', error) := RemoveActive(t.s, id);
            error == None && SchedulerOk(cfg, Tracked(s', t.departed + {id}))
  {
    hide SchedulerOk;
    PositionFound(t.s.active, id, 0);
    LeaveKeepsOk(cfg, t, Position(t.s.active, id).value);
  }

  lemma TerminateKeepsOk(cfg: Config, t: Tracked, id: RequestId, how: Termination)
    requires SchedulerOk(cfg, t) && id in t.departed
    ensures var (s', error) := Terminate(t.s, id, how);
            error == None && SchedulerOk(cfg, Tracked(s', t.departed - {id}))
  {
    if t.s.coordination.Some? {
      hide FlightsOk, IsKnown, Remove, IsLeader, IsFollower;
      var f := t.s.coordination.value;
      assert InPlay(t, id) && IsKnown(f, id) && !IsFollower(f, id);
      RemoveExact(f, id, how);
      WakeExact(cfg, t, Remove(f, id, how), {id});
    }
  }

  lemma ReleaseKeepsOk(cfg: Config, t: Tracked, id: RequestId)
    requires SchedulerOk(cfg, t) && Allowed(cfg, t, ReleaseFlightOp(id))
    ensures var (s', error) := ReleasePrefixFlight(t.s, id);
            error == None && SchedulerOk(cfg, Tracked(s', t.departed))
  {
    if t.s.coordination.Some? {
      hide FlightsOk, IsKnown, ReleaseAfterPublication, IsLeader, IsFollower;
      var f := t.s.coordination.value;
      ReleaseExact(f, id);
      WakeExact(cfg, t, ReleaseAfterPublication(f, id), {});
      assert t.departed - {} == t.departed;
    }
  }

  /** Every step the worker may take succeeds and keeps reservations, places and coordination in
      order; in particular waking followers never fails. */
  lemma StepKeepsOk(cfg: Config, t: Tracked, op: SchedulerOp)
    requires SchedulerOk(cfg, t) && Allowed(cfg, t, op)
    ensures var o := After(cfg, t, op);
            o.error == None && SchedulerOk(cfg, o.t)
  {
    assert cfg.pageTokens > 0;
    hide SchedulerOk;
    match op
    case EnqueueOp(id, input, maxNew, cached) => EnqueueKeepsOk(cfg, t, id, input, maxNew, cached);
    case AdmitOp => AdmitKeepsOk(cfg, t);
    case PhaseOp(id, phase) => PhaseKeepsOk(cfg, t, id, phase);
    case RemoveActiveOp(id) => RemoveActiveKeepsOk(cfg, t, id);
    case TerminateOp(id, how) => TerminateKeepsOk(cfg, t, id, how);
    case ReleaseFlightOp(id) => ReleaseKeepsOk(cfg, t, id);
  }

  ghost predicate IsSchedulerRun(cfg: Config, states: seq<Tracked>, ops: seq<SchedulerOp>) {
    && cfg.pageTokens > 0 && |states| == |ops| + 1
    && forall i :: 0 <= i < |ops| ==> RunStep(cfg, states, ops, i)
  }

  ghost predicate RunStep(cfg: Config, states: seq<Tracked>, ops: seq<SchedulerOp>, i: nat)
    requires cfg.pageTokens > 0 && |states| == |ops| + 1 && i < |ops|
  {
    Allowed(cfg, states[i], ops[i]) && states[i + 1] == After(cfg, states[i], ops[i]).t
  }

  /** Over every run the sum of active reservations stays within the page capacity, every request is in
      one place, exactly the queued followers are blocked, and no step fails. */
  lemma {:induction false} RunKeepsOk(cfg: Config, states: seq<Tracked>, ops: seq<SchedulerOp>, n: nat)
    requires IsSchedulerRun(cfg, states, ops) && SchedulerOk(cfg, states[0]) && n <= |ops|
    ensures SchedulerOk(cfg, states[n]) && SumPages(states[n].s.active) <= cfg.PageCapacity()
    ensures n < |ops| ==> RunStep(cfg, states, ops, n) && After(cfg, states[n], ops[n]).error == None
    decreases n
  {
    if n > 0 {
      RunKeepsOk(cfg, states, ops, n - 1);
      assert RunStep(cfg, states, ops, n - 1);
      StepKeepsOk(cfg, states[n - 1], ops[n - 1]);
    }
    if n < |ops| {
      assert RunStep(cfg, states, ops, n);
      StepKeepsOk(cfg, states[n], ops[n]);
    }
  }

  /** The queue cannot get stuck: when nothing is active and no termination is outstanding, admission
      takes at least one of the queued requests. */
  lemma NoDeadlock(cfg: Config, t: Tracked)
    requires SchedulerOk(cfg, t) && t.s.queue != [] && t.s.active == [] && t.departed == {}
    ensures Admit(cfg, t.s).1 != [] && Admit(cfg, t.s).0.active != []
  {
    hide FlightsOk, Admit;
    var q := t.s.queue[0];
    if !q.blocked {
      AdmissionProgresses(cfg, t.s, q);
    } else {
      var f := t.s.coordination.value;
      assert IsFollower(f, q.id);
      FollowerHasLeader(f, q.id);
      var leader := f.flights[f.flightOf[q.id]].leader;
      assert IsKnown(f, leader) && InPlay(t, leader) && Holds(t.s.queue, leader);
      var i :| 0 <= i < |t.s.queue| && t.s.queue[i].id == leader;
      assert !t.s.queue[i].blocked;
      AdmissionProgresses(cfg, t.s, t.s.queue[i]);
    }
  }

  /** A fresh scheduler is in order. */
  lemma FreshSchedulerOk(cfg: Config, coordination: Option<Flights>)
    requires cfg.pageTokens > 0 && cfg.maxActive > 0
    requires coordination.Some? ==> Empty(coordination.value)
    ensures SchedulerOk(cfg, Tracked(State([], [], None, coordination), {}))
  {
    var t := Tracked(State([], [], None, coordination), {});
    assert forall id :: !InPlay(t, id);
    if coordination.Some? {
      forall id ensures !IsKnown(coordination.value, id) && !IsFollower(coordination.value, id) { }
    }
  }
}
