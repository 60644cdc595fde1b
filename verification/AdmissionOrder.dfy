/** In which order requests leave the queue. Admission follows the policy: the fewest remaining prefill
    tokens first, or simply the order of the queue, and over every run the queue is in the order of
    arrival as far as the policy lets it be. */
module AdmissionOrder {
  import opened Common
  import opened PrefixCacheFlight
  import opened SchedulerSpec
  import opened SchedulerRuns

  /** x stands before y. */
  ghost predicate Ahead(s: seq<Request>, x: RequestId, y: RequestId) {
    exists i, j :: 0 <= i < j < |s| && s[i].id == x && s[j].id == y
  }

  /** Whether x goes before y: under shortest prefill first by the remaining tokens and then by place, under
      the other policies by place alone. */
  ghost predicate GoesFirst(policy: Policy, queue: seq<Request>, x: RequestId, y: RequestId) {
    exists i, j ::
      && 0 <= i < |queue| && 0 <= j < |queue| && queue[i].id == x && queue[j].id == y
      && match policy
         case ShortestPrefillFirst =>
           RemainingPrefill(queue[i]) < RemainingPrefill(queue[j]) || (RemainingPrefill(queue[i]) == RemainingPrefill(queue[j]) && i < j)
         case FirstComeFirstServed => i < j
         case RoundRobin => i < j
  }

  // ---- Sequences ----------------------------------------------------------------------------------

  lemma AheadAt(s: seq<Request>, i: nat, j: nat)
    requires i < j < |s|
    ensures Ahead(s, s[i].id, s[j].id)
  {
  }

  /** In a sequence of distinct requests one of two stands before the other, and only that one. */
  lemma OneWay(s: seq<Request>, x: RequestId, y: RequestId)
    requires IdsDistinct(s) && Holds(s, x) && Holds(s, y) && x != y
    ensures Ahead(s, x, y) <==> !Ahead(s, y, x)
  {
    var i :| 0 <= i < |s| && s[i].id == x;
    var j :| 0 <= j < |s| && s[j].id == y;
    assert forall k :: 0 <= k < |s| && s[k].id == x ==> k == i;
    assert forall k :: 0 <= k < |s| && s[k].id == y ==> k == j;
    if i < j { AheadAt(s, i, j); } else { AheadAt(s, j, i); }
  }

  /** What stands before what when an element in the middle is left out. */
  lemma AheadWithout(a: seq<Request>, r: Request, b: seq<Request>, x: RequestId, y: RequestId)
    requires Ahead(a + b, x, y)
    ensures Ahead(a + [r] + b, x, y)
  {
    var i, j :| 0 <= i < j < |a + b| && (a + b)[i].id == x && (a + b)[j].id == y;
    var s := a + [r] + b;
    assert s[if i < |a| then i else i + 1] == (a + b)[i] && s[if j < |a| then j else j + 1] == (a + b)[j];
  }

  // ---- The order of the policy -----------------------------------------------------------------------

  lemma OrderGoesFirst(policy: Policy, queue: seq<Request>, a: nat, b: nat)
    requires IdsDistinct(queue) && a < b < |PolicyOrder(policy, queue)|
    ensures GoesFirst(policy, queue, PolicyOrder(policy, queue)[a].id, PolicyOrder(policy, queue)[b].id)
  {
    if policy == ShortestPrefillFirst { var _, _ := SortedFrom(queue, RemainingPrefill, a, b); }
  }

  lemma OrderAheadGoesFirst(policy: Policy, queue: seq<Request>, x: RequestId, y: RequestId)
    requires IdsDistinct(queue) && Ahead(PolicyOrder(policy, queue), x, y)
    ensures GoesFirst(policy, queue, x, y)
  {
    var order := PolicyOrder(policy, queue);
    var a, b :| 0 <= a < b < |order| && order[a].id == x && order[b].id == y;
    OrderGoesFirst(policy, queue, a, b);
  }

  // ---- Admission ------------------------------------------------------------------------------------

  /** What stays queued keeps its order. */
  lemma {:induction false} KeptInOrder(maxActive: nat, rest: seq<Request>, kept: seq<Request>, active: seq<Request>, available: nat,
                                       ids: seq<RequestId>, x: RequestId, y: RequestId)
    requires Ahead(AdmitFrom(maxActive, rest, kept, active, available, ids).queue, x, y)
    ensures Ahead(kept + rest, x, y)
    decreases |rest|
  {
    if rest == [] {
      assert kept + rest == kept;
    } else if rest[0].blocked {
      KeptInOrder(maxActive, rest[1..], kept + [rest[0]], active, available, ids, x, y);
      assert kept + [rest[0]] + rest[1..] == kept + rest;
    } else if |active| < maxActive && rest[0].maxPages <= available {
      KeptInOrder(maxActive, rest[1..], kept, active + [rest[0]], available - rest[0].maxPages, ids + [rest[0].id], x, y);
      AheadWithout(kept, rest[0], rest[1..], x, y);
      assert kept + [rest[0]] + rest[1..] == kept + rest;
    }
  }

  /** The unblocked requests keep their order. */
  lemma {:induction false} UnblockedInOrder(s: seq<Request>, a: nat, b: nat)
    requires a < b < |Unblocked(s)|
    ensures Ahead(s, Unblocked(s)[a].id, Unblocked(s)[b].id)
    decreases |s|
  {
    hide Ahead;
    var u, v := Unblocked(s), Unblocked(s[1..]);
    if s[0].blocked {
      UnblockedInOrder(s[1..], a, b);
      AheadLater(s, u[a].id, u[b].id);
    } else if a > 0 {
      assert u[a] == v[a - 1] && u[b] == v[b - 1];
      UnblockedInOrder(s[1..], a - 1, b - 1);
      AheadLater(s, u[a].id, u[b].id);
    } else {
      FiltersPartition(s[1..]);
      assert u[b] == v[b - 1] && u[b] in s[1..];
      var k :| 0 <= k < |s[1..]| && s[1..][k] == u[b];
      AheadAt(s, 0, k + 1);
    }
  }

  lemma AheadLater(s: seq<Request>, x: RequestId, y: RequestId)
    requires s != [] && Ahead(s[1..], x, y)
    ensures Ahead(s, x, y)
  {
    var i, j :| 0 <= i < j < |s[1..]| && s[1..][i].id == x && s[1..][j].id == y;
    assert s[i + 1].id == x && s[j + 1].id == y;
  }

  /** Admission by policy, without the sorted queue: those admitted join the active requests in the order of
      the policy, none of the unblocked ones left behind goes before one of them, and those left behind are
      in that order too. */
  lemma AdmitByPolicy(cfg: Config, s: State)
    requires cfg.pageTokens > 0 && IdsDistinct(s.queue)
    ensures var (s', ids) := Admit(cfg, s);
            && |s'.active| == |s.active| + |ids| && s'.active[..|s.active|] == s.active && Ids(s'.active[|s.active|..]) == ids
            && (forall a, b :: 0 <= a < b < |ids| ==> GoesFirst(cfg.policy, s.queue, ids[a], ids[b]))
            && (forall a, i :: 0 <= a < |ids| && 0 <= i < |s'.queue| && !s'.queue[i].blocked ==>
                  GoesFirst(cfg.policy, s.queue, ids[a], s'.queue[i].id))
            && (|s.active| >= cfg.maxActive ==> s'.queue == s.queue)
            && (|s.active| < cfg.maxActive ==>
                  forall i, j :: 0 <= i < j < |s'.queue| ==> GoesFirst(cfg.policy, s.queue, s'.queue[i].id, s'.queue[j].id))
  {
    hide LongestFitting, Unblocked, Blocked, PolicyOrder, AdmitFrom, GoesFirst, Admit;
    var n := AdmitExact(cfg, s);
    var (s', ids) := Admit(cfg, s);
    var u := Unblocked(PolicyOrder(cfg.policy, s.queue));
    assert s'.active[|s.active|..] == u[..n];
    if |s.active| < cfg.maxActive {
      forall a, b | 0 <= a < b < |ids| ensures GoesFirst(cfg.policy, s.queue, ids[a], ids[b]) {
        UnblockedGoesFirst(cfg.policy, s.queue, a, b);
      }
      forall a, i | 0 <= a < |ids| && 0 <= i < |s'.queue| && !s'.queue[i].blocked
        ensures GoesFirst(cfg.policy, s.queue, ids[a], s'.queue[i].id)
      {
        LeftBehind(cfg, s, s'.queue, n, a, i);
      }
      forall i, j | 0 <= i < j < |s'.queue| ensures GoesFirst(cfg.policy, s.queue, s'.queue[i].id, s'.queue[j].id) {
        AheadAt(s'.queue, i, j);
        LeftInOrder(cfg, s, s'.queue[i].id, s'.queue[j].id);
      }
    }
  }

  lemma UnblockedGoesFirst(policy: Policy, queue: seq<Request>, a: nat, b: nat)
    requires IdsDistinct(queue) && a < b < |Unblocked(PolicyOrder(policy, queue))|
    ensures var u := Unblocked(PolicyOrder(policy, queue));
            GoesFirst(policy, queue, u[a].id, u[b].id)
  {
    hide Unblocked, PolicyOrder, GoesFirst;
    UnblockedInOrder(PolicyOrder(policy, queue), a, b);
    var u := Unblocked(PolicyOrder(policy, queue));
    OrderAheadGoesFirst(policy, queue, u[a].id, u[b].id);
  }

  lemma LeftBehind(cfg: Config, s: State, left: seq<Request>, n: nat, a: nat, i: nat)
    requires IdsDistinct(s.queue)
    requires var u := Unblocked(PolicyOrder(cfg.policy, s.queue));
             n <= |u| && Unblocked(left) == u[n..] && a < n && i < |left| && !left[i].blocked
    ensures GoesFirst(cfg.policy, s.queue, Unblocked(PolicyOrder(cfg.policy, s.queue))[a].id, left[i].id)
  {
    hide Unblocked, PolicyOrder, GoesFirst;
    var u := Unblocked(PolicyOrder(cfg.policy, s.queue));
    FiltersPartition(left);
    assert left[i] in left && left[i] in u[n..];
    var k :| 0 <= k < |u[n..]| && u[n..][k] == left[i];
    assert u[n + k] == left[i];
    UnblockedGoesFirst(cfg.policy, s.queue, a, n + k);
  }

  lemma LeftInOrder(cfg: Config, s: State, x: RequestId, y: RequestId)
    requires cfg.pageTokens > 0 && IdsDistinct(s.queue) && |s.active| < cfg.maxActive && Ahead(Admit(cfg, s).0.queue, x, y)
    ensures GoesFirst(cfg.policy, s.queue, x, y)
  {
    hide PolicyOrder, AdmitFrom, GoesFirst, Ahead;
    var order := PolicyOrder(cfg.policy, s.queue);
    KeptInOrder(cfg.maxActive, order, [], s.active, Unreserved(cfg, s.active), [], x, y);
    assert [] + order == order;
    OrderAheadGoesFirst(cfg.policy, s.queue, x, y);
  }

  // ---- The other operations -------------------------------------------------------------------------

  /** Waking requests changes nothing else about them. */
  ghost predicate OnlyUnblocked(a: seq<Request>, b: seq<Request>) {
    |a| == |b| && forall i :: 0 <= i < |a| ==> b[i] == a[i].(blocked := b[i].blocked)
  }

  lemma {:induction false} UnblockOnly(queue: seq<Request>, ids: seq<RequestId>)
    ensures OnlyUnblocked(queue, Unblock(queue, ids).0)
    decreases |ids|
  {
    if ids != [] {
      PositionFound(queue, ids[0], 0);
      match Position(queue, ids[0])
      case None =>
      case Some(k) => if queue[k].blocked { UnblockOnly(queue[k := queue[k].(blocked := false)], ids[1..]); }
    }
  }

  lemma WakeOnly(s: State, step: FlightStep)
    ensures OnlyUnblocked(s.queue, Wake(s, step).0.queue) && Wake(s, step).0.active == s.active
  {
    hide Unblock;
    if step.runnable.Done? { UnblockOnly(s.queue, step.runnable.value); }
  }

  lemma TerminateOnly(s: State, id: RequestId, how: Termination)
    ensures OnlyUnblocked(s.queue, Terminate(s, id, how).0.queue) && Terminate(s, id, how).0.active == s.active
  {
    hide Wake, Remove;
    if s.coordination.Some? { WakeOnly(s, Remove(s.coordination.value, id, how)); }
  }

  lemma ReleaseOnly(s: State, id: RequestId)
    ensures OnlyUnblocked(s.queue, ReleasePrefixFlight(s, id).0.queue) && ReleasePrefixFlight(s, id).0.active == s.active
  {
    hide Wake, ReleaseAfterPublication;
    if s.coordination.Some? { WakeOnly(s, ReleaseAfterPublication(s.coordination.value, id)); }
  }

  lemma UnblockedAhead(a: seq<Request>, b: seq<Request>, x: RequestId, y: RequestId)
    requires OnlyUnblocked(a, b) && Ahead(a, x, y)
    ensures Ahead(b, x, y)
  {
    var i, j :| 0 <= i < j < |a| && a[i].id == x && a[j].id == y;
    assert b[i].id == x && b[j].id == y;
  }

  /** The active list after a phase change or a departure. */
  lemma ActiveAfter(s: State, id: RequestId, phase: GenerationPhase, x: RequestId, y: RequestId)
    requires IdsDistinct(s.active) && Ahead(s.active, x, y)
    ensures var s' := UpdatePhase(s, id, phase).0;
            s'.queue == s.queue && (Holds(s'.active, x) && Holds(s'.active, y) ==> Ahead(s'.active, x, y))
  {
    hide Ahead;
    PositionFound(s.active, id, 0);
    if Position(s.active, id).Some? {
      var k := Position(s.active, id).value;
      if phase.FinishedPhase? {
        DroppedAhead(s.active, k, x, y);
      } else {
        var active := UpdatePhase(s, id, phase).0.active;
        assert active == s.active[k := active[k]];
        ReplacedAhead(s.active, k, active[k], x, y);
      }
    }
  }

  lemma ActiveWithout(s: State, id: RequestId, x: RequestId, y: RequestId)
    requires IdsDistinct(s.active) && Ahead(s.active, x, y)
    ensures var s' := RemoveActive(s, id).0;
            s'.queue == s.queue && (Holds(s'.active, x) && Holds(s'.active, y) ==> Ahead(s'.active, x, y))
  {
    hide Ahead;
    PositionFound(s.active, id, 0);
    if Position(s.active, id).Some? { DroppedAhead(s.active, Position(s.active, id).value, x, y); }
  }

  lemma ReplacedAhead(s: seq<Request>, k: nat, r: Request, x: RequestId, y: RequestId)
    requires k < |s| && r.id == s[k].id && Ahead(s, x, y)
    ensures Ahead(s[k := r], x, y)
  {
    var i, j :| 0 <= i < j < |s| && s[i].id == x && s[j].id == y;
    assert s[k := r][i].id == x && s[k := r][j].id == y;
  }

  lemma DroppedAhead(s: seq<Request>, k: nat, x: RequestId, y: RequestId)
    requires IdsDistinct(s) && k < |s| && Ahead(s, x, y)
    ensures Holds(Drop(s, k), x) && Holds(Drop(s, k), y) ==> Ahead(Drop(s, k), x, y)
  {
    if Holds(Drop(s, k), x) && Holds(Drop(s, k), y) {
      NotDropped(s, k, x);
      NotDropped(s, k, y);
      hide Holds;
      var i, j :| 0 <= i < j < |s| && s[i].id == x && s[j].id == y;
      var (i', j') := (if i < k then i else i - 1, if j < k then j else j - 1);
      assert Drop(s, k)[i'] == s[i] && Drop(s, k)[j'] == s[j] && i' < j';
    }
  }

  lemma NotDropped(s: seq<Request>, k: nat, x: RequestId)
    requires IdsDistinct(s) && k < |s| && Holds(Drop(s, k), x)
    ensures s[k].id != x
  {
    var a :| 0 <= a < |Drop(s, k)| && Drop(s, k)[a].id == x;
    assert Drop(s, k)[a] == s[if a < k then a else a + 1];
  }

  // ---- Runs -----------------------------------------------------------------------------------------

  /** Request x waits with n tokens to prefill. */
  ghost predicate Queued(queue: seq<Request>, x: RequestId, n: nat) {
    exists i :: 0 <= i < |queue| && queue[i].id == x && queue[i].phase == Prefill(n)
  }

  /** The policy does not put the one with m tokens before the one with n just for being shorter. */
  predicate NotOvertaken(policy: Policy, n: nat, m: nat) { policy == ShortestPrefillFirst ==> n <= m }

  /** x waits before y, and the policy has no reason to change that. */
  ghost predicate OrderMatters(policy: Policy, queue: seq<Request>, x: RequestId, n: nat, y: RequestId, m: nat) {
    Ahead(queue, x, y) && Queued(queue, x, n) && Queued(queue, y, m) && NotOvertaken(policy, n, m)
  }

  lemma NotGoesFirst(policy: Policy, queue: seq<Request>, x: RequestId, n: nat, y: RequestId, m: nat)
    requires IdsDistinct(queue) && OrderMatters(policy, queue, x, n, y, m)
    ensures !GoesFirst(policy, queue, y, x)
  {
    var i, j :| 0 <= i < j < |queue| && queue[i].id == x && queue[j].id == y;
    forall a, b | 0 <= a < |queue| && 0 <= b < |queue| && queue[a].id == y && queue[b].id == x ensures a == j && b == i {
    }
  }

  /** An admission keeps the order of those that stay. */
  lemma AdmissionKeepsOrder(cfg: Config, s: State, x: RequestId, n: nat, y: RequestId, m: nat)
    requires cfg.pageTokens > 0 && IdsDistinct(s.queue) && OrderMatters(cfg.policy, s.queue, x, n, y, m)
    requires IdsDistinct(Admit(cfg, s).0.queue)
    requires Holds(Admit(cfg, s).0.queue, x) && Holds(Admit(cfg, s).0.queue, y)
    ensures Ahead(Admit(cfg, s).0.queue, x, y)
  {
    hide Admit, GoesFirst, Ahead, Queued, IdsDistinct;
    AdmitByPolicy(cfg, s);
    NotGoesFirst(cfg.policy, s.queue, x, n, y, m);
    var queue := Admit(cfg, s).0.queue;
    NotBoth(s.queue, x, y);
    if |s.active| < cfg.maxActive {
      OneWay(queue, x, y);
      if Ahead(queue, y, x) { AheadGoesFirst(cfg.policy, s.queue, queue, y, x); }
    }
  }

  lemma NotBoth(s: seq<Request>, x: RequestId, y: RequestId)
    requires IdsDistinct(s) && Ahead(s, x, y)
    ensures x != y
  {
  }

  lemma AheadGoesFirst(policy: Policy, before: seq<Request>, queue: seq<Request>, x: RequestId, y: RequestId)
    requires Ahead(queue, x, y)
    requires forall i, j :: 0 <= i < j < |queue| ==> GoesFirst(policy, before, queue[i].id, queue[j].id)
    ensures GoesFirst(policy, before, x, y)
  {
    hide GoesFirst;
    var i, j :| 0 <= i < j < |queue| && queue[i].id == x && queue[j].id == y;
  }

  /** Whoever goes on waiting waits with the same tokens. */
  lemma StaysQueued(cfg: Config, t: Tracked, op: SchedulerOp, x: RequestId, n: nat)
    requires SchedulerOk(cfg, t) && Allowed(cfg, t, op) && cfg.pageTokens > 0 && Queued(t.s.queue, x, n) && Holds(After(cfg, t, op).t.s.queue, x)
    ensures Queued(After(cfg, t, op).t.s.queue, x, n)
  {
    var i :| 0 <= i < |t.s.queue| && t.s.queue[i].id == x && t.s.queue[i].phase == Prefill(n);
    var after := After(cfg, t, op).t.s.queue;
    match op
    case EnqueueOp(id, input, maxNew, cached) =>
      StepKeepsOk(cfg, t, op);
      hide SchedulerOk, Add;
      assert after[i] == t.s.queue[i];
    case AdmitOp => StaysUnadmitted(cfg, t, x, i);
    case PhaseOp(id, phase) => QueueUntouched(t.s, id, phase);
    case RemoveActiveOp(id) => QueueUntouched(t.s, id, FinishedPhase);
    case TerminateOp(id, how) => TerminateOnly(t.s, id, how); assert after[i].id == x;
    case ReleaseFlightOp(id) => ReleaseOnly(t.s, id); assert after[i].id == x;
  }

  lemma QueueUntouched(s: State, id: RequestId, phase: GenerationPhase)
    ensures UpdatePhase(s, id, phase).0.queue == s.queue && RemoveActive(s, id).0.queue == s.queue
  {
  }

  lemma StaysUnadmitted(cfg: Config, t: Tracked, x: RequestId, i: nat)
    requires SchedulerOk(cfg, t) && cfg.pageTokens > 0 && i < |t.s.queue| && t.s.queue[i].id == x && Holds(Admit(cfg, t.s).0.queue, x)
    ensures exists j :: 0 <= j < |Admit(cfg, t.s).0.queue| && Admit(cfg, t.s).0.queue[j] == t.s.queue[i]
  {
    hide Admit, Coordinated, QueueOk, SumPages;
    AdmitKeepsOk(cfg, t);
    var _ := AdmitExact(cfg, t.s);
    var s' := Admit(cfg, t.s).0;
    var j :| 0 <= j < |s'.queue| && s'.queue[j].id == x;
    SameEntry(t.s, s', i, j);
  }

  lemma SameEntry(s: State, s': State, i: nat, j: nat)
    requires multiset(s'.queue) + multiset(s'.active) == multiset(s.queue) + multiset(s.active) && IdsDistinct(s.queue)
    requires i < |s.queue| && j < |s'.queue| && s'.queue[j].id == s.queue[i].id && !Holds(s.active, s.queue[i].id)
    ensures s'.queue[j] == s.queue[i]
  {
    var r := s'.queue[j];
    assert r in multiset(s'.queue) && r in multiset(s.queue) + multiset(s.active);
    forall a | 0 <= a < |s.active| ensures s.active[a] != r { assert s.active[a].id != s.queue[i].id; }
    var k :| 0 <= k < |s.queue| && s.queue[k] == r;
  }

  /** No operation lets a later request overtake an earlier one in the queue, except that the policy prefers
      shorter inputs, and none changes the order of the active ones. */
  lemma StepKeepsOrder(cfg: Config, t: Tracked, op: SchedulerOp, x: RequestId, y: RequestId)
    requires SchedulerOk(cfg, t) && Allowed(cfg, t, op) && cfg.pageTokens > 0
    ensures var s' := After(cfg, t, op).t.s;
            && (forall n, m :: OrderMatters(cfg.policy, t.s.queue, x, n, y, m) && Holds(s'.queue, x) && Holds(s'.queue, y) ==>
                  Ahead(s'.queue, x, y))
            && (Ahead(t.s.active, x, y) && Holds(s'.active, x) && Holds(s'.active, y) ==> Ahead(s'.active, x, y))
  {
    StepKeepsOk(cfg, t, op);
    PlacesDistinct(cfg, t);
    PlacesDistinct(cfg, After(cfg, t, op).t);
    hide SchedulerOk, Queued, Holds, IdsDistinct, GoesFirst, Ahead, Admit, UpdatePhase, RemoveActive, Terminate, ReleasePrefixFlight,
      Enqueue, NotOvertaken;
    match op
    case EnqueueOp(id, input, maxNew, cached) => EnqueuedOrder(cfg, t.s, id, input, maxNew, cached, x, y);
    case AdmitOp => AdmittedOrder(cfg, t.s, x, y);
    case PhaseOp(id, phase) =>
      QueueUntouched(t.s, id, phase);
      if Ahead(t.s.active, x, y) { ActiveAfter(t.s, id, phase, x, y); }
    case RemoveActiveOp(id) =>
      QueueUntouched(t.s, id, FinishedPhase);
      if Ahead(t.s.active, x, y) { ActiveWithout(t.s, id, x, y); }
    case TerminateOp(id, how) =>
      TerminateOnly(t.s, id, how);
      if Ahead(t.s.queue, x, y) { UnblockedAhead(t.s.queue, After(cfg, t, op).t.s.queue, x, y); }
    case ReleaseFlightOp(id) =>
      ReleaseOnly(t.s, id);
      if Ahead(t.s.queue, x, y) { UnblockedAhead(t.s.queue, After(cfg, t, op).t.s.queue, x, y); }
  }

  lemma PlacesDistinct(cfg: Config, t: Tracked)
    requires SchedulerOk(cfg, t)
    ensures IdsDistinct(t.s.queue) && IdsDistinct(t.s.active)
  {
  }

  lemma EnqueuedOrder(cfg: Config, s: State, id: RequestId, input: seq<Token>, maxNew: nat, cached: nat, x: RequestId, y: RequestId)
    requires cfg.pageTokens > 0 && |input| + maxNew > 0
    ensures var s' := Enqueue(cfg, s, id, input, maxNew, cached).0;
            s'.active == s.active && (Ahead(s.queue, x, y) ==> Ahead(s'.queue, x, y))
  {
    hide Add;
    if Ahead(s.queue, x, y) {
      var i, j :| 0 <= i < j < |s.queue| && s.queue[i].id == x && s.queue[j].id == y;
      var queue := Enqueue(cfg, s, id, input, maxNew, cached).0.queue;
      assert queue[i].id == x && queue[j].id == y;
    }
  }

  lemma AdmittedOrder(cfg: Config, s: State, x: RequestId, y: RequestId)
    requires cfg.pageTokens > 0 && IdsDistinct(s.queue) && IdsDistinct(Admit(cfg, s).0.queue)
    ensures var s' := Admit(cfg, s).0;
            && (forall n, m :: OrderMatters(cfg.policy, s.queue, x, n, y, m) && Holds(s'.queue, x) && Holds(s'.queue, y) ==>
                  Ahead(s'.queue, x, y))
            && (Ahead(s.active, x, y) ==> Ahead(s'.active, x, y))
  {
    hide Admit, Queued, Holds, IdsDistinct, GoesFirst, Ahead, NotOvertaken;
    var s' := Admit(cfg, s).0;
    forall n, m | OrderMatters(cfg.policy, s.queue, x, n, y, m) && Holds(s'.queue, x) && Holds(s'.queue, y)
      ensures Ahead(s'.queue, x, y)
    {
      AdmissionKeepsOrder(cfg, s, x, n, y, m);
    }
    AdmitByPolicy(cfg, s);
    if Ahead(s.active, x, y) { PrefixAhead(s.active, s'.active, x, y); }
  }

  lemma PrefixAhead(a: seq<Request>, b: seq<Request>, x: RequestId, y: RequestId)
    requires Ahead(a, x, y) && |a| <= |b| && b[..|a|] == a
    ensures Ahead(b, x, y)
  {
    var i, j :| 0 <= i < j < |a| && a[i].id == x && a[j].id == y;
    assert b[i] == a[i] && b[j] == a[j];
  }

  /** Request x was enqueued by operation i and has waited since. */
  ghost predicate WaitsSince(states: seq<Tracked>, ops: seq<SchedulerOp>, x: RequestId, i: nat, n: nat)
    requires |states| == |ops| + 1 && n <= |ops|
  {
    i < n && ops[i].EnqueueOp? && ops[i].id == x && forall k :: i < k <= n ==> Holds(states[k].s.queue, x)
  }

  lemma {:induction false} StillQueued(cfg: Config, states: seq<Tracked>, ops: seq<SchedulerOp>, x: RequestId, i: nat, n: nat)
    requires IsSchedulerRun(cfg, states, ops) && SchedulerOk(cfg, states[0]) && n <= |ops| && WaitsSince(states, ops, x, i, n)
    ensures Queued(states[n].s.queue, x, |ops[i].input|)
    decreases n
  {
    RunKeepsOk(cfg, states, ops, n - 1);
    assert RunStep(cfg, states, ops, n - 1);
    if i == n - 1 {
      NewlyQueued(cfg, states[i], ops[i]);
    } else {
      StillQueued(cfg, states, ops, x, i, n - 1);
      StaysQueued(cfg, states[n - 1], ops[n - 1], x, |ops[i].input|);
    }
  }

  lemma NewlyQueued(cfg: Config, t: Tracked, op: SchedulerOp)
    requires SchedulerOk(cfg, t) && Allowed(cfg, t, op) && cfg.pageTokens > 0 && op.EnqueueOp?
    ensures var queue := After(cfg, t, op).t.s.queue;
            && |queue| == |t.s.queue| + 1 && queue[|t.s.queue|].id == op.id && Queued(queue, op.id, |op.input|)
            && forall x :: Holds(t.s.queue, x) ==> Ahead(queue, x, op.id)
  {
    EnqueueKeepsOk(cfg, t, op.id, op.input, op.maxNew, op.cached);
    hide SchedulerOk, Add;
    var queue := After(cfg, t, op).t.s.queue;
    assert queue[|t.s.queue|].phase == Prefill(|op.input|);
    forall x | Holds(t.s.queue, x) ensures Ahead(queue, x, op.id) {
      var i :| 0 <= i < |t.s.queue| && t.s.queue[i].id == x;
      assert queue[i].id == x;
    }
  }

  /** Over every run the queue is in the order of arrival, except that shortest prefill first may put a shorter
      input before a longer one. */
  lemma {:induction false} QueueInArrivalOrder(cfg: Config, states: seq<Tracked>, ops: seq<SchedulerOp>, x: RequestId, i: nat,
                                               y: RequestId, j: nat, n: nat)
    requires IsSchedulerRun(cfg, states, ops) && SchedulerOk(cfg, states[0]) && n <= |ops| && i < j
    requires WaitsSince(states, ops, x, i, n) && WaitsSince(states, ops, y, j, n)
    requires NotOvertaken(cfg.policy, |ops[i].input|, |ops[j].input|)
    ensures Ahead(states[n].s.queue, x, y)
    decreases n
  {
    hide SchedulerOk, Queued, Holds, Ahead, After, NotOvertaken, Allowed;
    RunKeepsOk(cfg, states, ops, n - 1);
    assert RunStep(cfg, states, ops, n - 1);
    if j == n - 1 {
      NewlyQueued(cfg, states[j], ops[j]);
    } else {
      QueueInArrivalOrder(cfg, states, ops, x, i, y, j, n - 1);
      StillQueued(cfg, states, ops, x, i, n - 1);
      StillQueued(cfg, states, ops, y, j, n - 1);
      assert OrderMatters(cfg.policy, states[n - 1].s.queue, x, |ops[i].input|, y, |ops[j].input|);
      StepKeepsOrder(cfg, states[n - 1], ops[n - 1], x, y);
    }
  }

  /** Nobody is admitted before an unblocked request that arrived earlier, except a shorter input under
      shortest prefill first. */
  lemma AdmittedInArrivalOrder(cfg: Config, states: seq<Tracked>, ops: seq<SchedulerOp>, x: RequestId, i: nat, y: RequestId, j: nat, n: nat)
    requires IsSchedulerRun(cfg, states, ops) && SchedulerOk(cfg, states[0]) && n < |ops| && i < j
    requires WaitsSince(states, ops, x, i, n) && WaitsSince(states, ops, y, j, n)
    requires NotOvertaken(cfg.policy, |ops[i].input|, |ops[j].input|)
    requires ops[n] == AdmitOp && y in Admit(cfg, states[n].s).1
    requires forall k :: 0 <= k < |states[n].s.queue| && states[n].s.queue[k].id == x ==> !states[n].s.queue[k].blocked
    ensures Holds(states[n + 1].s.active, x) && Ahead(states[n + 1].s.active, x, y)
  {
    RunKeepsOk(cfg, states, ops, n);
    assert RunStep(cfg, states, ops, n);
    var (s, s') := (states[n].s, states[n + 1].s);
    PlacesDistinct(cfg, states[n]);
    QueueInArrivalOrder(cfg, states, ops, x, i, y, j, n);
    StillQueued(cfg, states, ops, x, i, n);
    StillQueued(cfg, states, ops, y, j, n);
    NotGoesFirst(cfg.policy, s.queue, x, |ops[i].input|, y, |ops[j].input|);
    AdmitByPolicy(cfg, s);
    var ids := Admit(cfg, s).1;
    var b :| 0 <= b < |ids| && ids[b] == y;
    var a := AdmittedToo(cfg, states[n], x, y, b);
    AheadInSuffix(s.active, s'.active, ids, a, b);
  }

  /** A request that does not go behind an admitted one and is not blocked is admitted before it. */
  lemma AdmittedToo(cfg: Config, t: Tracked, x: RequestId, y: RequestId, b: nat) returns (a: nat)
    requires SchedulerOk(cfg, t) && cfg.pageTokens > 0 && Holds(t.s.queue, x) && x != y
    requires forall k :: 0 <= k < |t.s.queue| && t.s.queue[k].id == x ==> !t.s.queue[k].blocked
    requires b < |Admit(cfg, t.s).1| && Admit(cfg, t.s).1[b] == y && !GoesFirst(cfg.policy, t.s.queue, y, x)
    ensures a < b && Admit(cfg, t.s).1[a] == x
  {
    PlacesDistinct(cfg, t);
    AdmitByPolicy(cfg, t.s);
    hide Admit, GoesFirst, SchedulerOk, Holds;
    var (s', ids) := Admit(cfg, t.s);
    if Holds(s'.queue, x) { LeftGoesBehind(cfg, t, x, b); }
    AdmitMovesIds(cfg, t, x);
    a :| 0 <= a < |ids| && ids[a] == x;
    assert a != b && !(b < a);
  }

  lemma LeftGoesBehind(cfg: Config, t: Tracked, x: RequestId, b: nat)
    requires SchedulerOk(cfg, t) && cfg.pageTokens > 0 && Holds(t.s.queue, x) && Holds(Admit(cfg, t.s).0.queue, x)
    requires forall k :: 0 <= k < |t.s.queue| && t.s.queue[k].id == x ==> !t.s.queue[k].blocked
    requires b < |Admit(cfg, t.s).1|
    ensures GoesFirst(cfg.policy, t.s.queue, Admit(cfg, t.s).1[b], x)
  {
    PlacesDistinct(cfg, t);
    AdmitByPolicy(cfg, t.s);
    hide Admit, GoesFirst;
    var i :| 0 <= i < |t.s.queue| && t.s.queue[i].id == x;
    StaysUnadmitted(cfg, t, x, i);
    var k :| 0 <= k < |Admit(cfg, t.s).0.queue| && Admit(cfg, t.s).0.queue[k] == t.s.queue[i];
  }

  lemma AdmitMovesIds(cfg: Config, t: Tracked, x: RequestId)
    requires SchedulerOk(cfg, t) && cfg.pageTokens > 0 && Holds(t.s.queue, x) && !Holds(Admit(cfg, t.s).0.queue, x)
    ensures x in Admit(cfg, t.s).1
  {
    hide Admit, Coordinated, QueueOk, SumPages, Unblocked, Blocked, PolicyOrder, LongestFitting, GoesFirst;
    AdmitByPolicy(cfg, t.s);
    var _ := AdmitExact(cfg, t.s);
    MovedId(t.s, Admit(cfg, t.s).0, Admit(cfg, t.s).1, x);
  }

  lemma MovedId(s: State, s': State, ids: seq<RequestId>, x: RequestId)
    requires multiset(s'.queue) + multiset(s'.active) == multiset(s.queue) + multiset(s.active)
    requires |s'.active| == |s.active| + |ids| && s'.active[..|s.active|] == s.active && Ids(s'.active[|s.active|..]) == ids
    requires Holds(s.queue, x) && !Holds(s'.queue, x) && !Holds(s.active, x)
    ensures x in ids
  {
    var i :| 0 <= i < |s.queue| && s.queue[i].id == x;
    var r := s.queue[i];
    assert r in multiset(s.queue) && r in multiset(s'.queue) + multiset(s'.active);
    assert r !in s'.queue by { forall j | 0 <= j < |s'.queue| ensures s'.queue[j] != r { assert s'.queue[j].id != x; } }
    var k :| 0 <= k < |s'.active| && s'.active[k] == r;
    forall j | 0 <= j < |s.active| ensures s'.active[j] != r { assert s'.active[j] == s'.active[..|s.active|][j] && s.active[j].id != x; }
    assert s'.active[|s.active|..][k - |s.active|] == r && ids[k - |s.active|] == x;
  }

  lemma AheadInSuffix(before: seq<Request>, active: seq<Request>, ids: seq<RequestId>, a: nat, b: nat)
    requires |active| == |before| + |ids| && Ids(active[|before|..]) == ids && a < b < |ids|
    ensures Ahead(active, ids[a], ids[b]) && Holds(active, ids[a])
  {
    assert active[|before| + a] == active[|before|..][a] && active[|before| + b] == active[|before|..][b];
    assert active[|before| + a].id == ids[a] && active[|before| + b].id == ids[b];
  }
}
