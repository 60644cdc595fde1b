/** The scheduler as functions on its state: admission of queued requests against worst-case page
    reservations, phase updates, and token-budgeted batches. */
module SchedulerSpec {
  import opened Common
  import opened Arithmetic
  import opened PrefixCacheFlight

  datatype Phase = Prefill(remaining: nat) | Decode

  datatype Policy = FirstComeFirstServed | ShortestPrefillFirst | RoundRobin

  datatype Request = Request(id: RequestId, maxPages: nat, maxNew: nat, cachedEstimate: nat, generated: nat, phase: Phase,
                             blocked: bool)

  /** `KvCacheGeometry` and `SchedulerConfig`. */
  datatype Config = Config(maxBatchedTokens: nat, maxActive: nat, tokenCapacity: nat, pageTokens: nat, policy: Policy)
  {
    function PageCapacity(): nat
      requires pageTokens > 0
    {
      Div(tokenCapacity, pageTokens)
    }
  }

  datatype GenerationPhase = PrefillPhase(remaining: nat) | DecodePhase(generated: nat) | FinishedPhase

  datatype PrefillWork = PrefillWork(id: RequestId, remaining: nat)

  datatype Grant = Grant(id: RequestId, budget: nat)

  datatype State = State(queue: seq<Request>, active: seq<Request>, next: Option<RequestId>, coordination: Option<Flights>)

  datatype SchedulerError =
    | FlightRefused(error: FlightError)
    | ActiveRequestMissing
    | DecodeBackToPrefill
    | QueuedRequestMissing
    | NotBlocked

  function Ids(s: seq<Request>): (ids: seq<RequestId>)
    ensures |ids| == |s| && forall i :: 0 <= i < |s| ==> ids[i] == s[i].id
  {
    seq(|s|, i requires 0 <= i < |s| => s[i].id)
  }

  function SumPages(s: seq<Request>): nat {
    if s == [] then 0 else SumPages(s[..|s| - 1]) + s[|s| - 1].maxPages
  }

  function RemainingPrefill(r: Request): nat {
    match r.phase
    case Prefill(n) => n
    case Decode => 0
  }

  // ---- Stable sorting -------------------------------------------------------------------------

  function InsertByKey<T>(x: T, s: seq<T>, key: T -> nat): seq<T> {
    if s == [] || key(x) <= key(s[0]) then [x] + s else [s[0]] + InsertByKey(x, s[1..], key)
  }

  /** A stable sort by increasing key. */
  function StableSort<T>(s: seq<T>, key: T -> nat): seq<T> {
    if s == [] then [] else InsertByKey(s[0], StableSort(s[1..], key), key)
  }

  function WithKey<T>(s: seq<T>, key: T -> nat, k: nat): seq<T> {
    if s == [] then [] else (if key(s[0]) == k then [s[0]] else []) + WithKey(s[1..], key, k)
  }

  ghost predicate SortedByKey<T>(s: seq<T>, key: T -> nat) {
    forall i, j :: 0 <= i < j < |s| ==> key(s[i]) <= key(s[j])
  }

  lemma {:induction false} InsertPermutes<T>(x: T, s: seq<T>, key: T -> nat)
    ensures multiset(InsertByKey(x, s, key)) == multiset(s) + multiset{x}
    decreases |s|
  {
    if s != [] && key(x) > key(s[0]) {
      InsertPermutes(x, s[1..], key);
      assert s == [s[0]] + s[1..];
    }
  }

  lemma {:induction false} InsertSorts<T>(x: T, s: seq<T>, key: T -> nat)
    requires SortedByKey(s, key)
    ensures SortedByKey(InsertByKey(x, s, key), key)
    decreases |s|
  {
    if s != [] && key(x) > key(s[0]) {
      var rest := s[1..];
      InsertSorts(x, rest, key);
      InsertPermutes(x, rest, key);
      var tail := InsertByKey(x, rest, key);
      forall j | 0 <= j < |tail| ensures key(s[0]) <= key(tail[j]) {
        assert tail[j] in multiset(tail);
        assert tail[j] == x || tail[j] in rest;
      }
    }
  }

  lemma WithKeyStep<T>(x: T, s: seq<T>, key: T -> nat, k: nat)
    ensures WithKey([x] + s, key, k) == (if key(x) == k then [x] else []) + WithKey(s, key, k)
  {
    assert ([x] + s)[1..] == s;
  }

  lemma {:induction false} InsertStable<T>(x: T, s: seq<T>, key: T -> nat, k: nat)
    ensures WithKey(InsertByKey(x, s, key), key, k) == (if key(x) == k then [x] else []) + WithKey(s, key, k)
                                                       || !SortedByKey(s, key)
    decreases |s|
  {
    hide WithKey;
    if s == [] || key(x) <= key(s[0]) {
      WithKeyStep(x, s, key, k);
    } else if SortedByKey(s, key) {
      InsertStable(x, s[1..], key, k);
      WithKeyStep(s[0], InsertByKey(x, s[1..], key), key, k);
      WithKeyStep(s[0], s[1..], key, k);
      assert s == [s[0]] + s[1..];
    }
  }

  /** Sorting permutes, orders by key, and keeps the order of equal keys. */
  lemma {:induction false} SortExact<T>(s: seq<T>, key: T -> nat, k: nat)
    ensures var r := StableSort(s, key);
            SortedByKey(r, key) && multiset(r) == multiset(s) && WithKey(r, key, k) == WithKey(s, key, k)
    decreases |s|
  {
    if s != [] {
      SortExact(s[1..], key, k);
      var sorted := StableSort(s[1..], key);
      InsertPermutes(s[0], sorted, key);
      InsertSorts(s[0], sorted, key);
      InsertStable(s[0], sorted, key, k);
      assert s == [s[0]] + s[1..];
    }
  }

  /** Where an element is inserted: behind the smaller keys and before all others. */
  lemma {:induction false} InsertPlace<T>(x: T, s: seq<T>, key: T -> nat) returns (p: nat)
    requires SortedByKey(s, key)
    ensures p <= |s| && InsertByKey(x, s, key) == s[..p] + [x] + s[p..]
    ensures forall i :: 0 <= i < p ==> key(s[i]) < key(x)
    ensures forall i :: p <= i < |s| ==> key(x) <= key(s[i])
    decreases |s|
  {
    if s == [] || key(x) <= key(s[0]) {
      p := 0;
    } else {
      p := InsertPlace(x, s[1..], key);
      assert s[..p + 1] == [s[0]] + s[1..][..p] && s[p + 1..] == s[1..][p..];
      p := p + 1;
    }
  }

  /** Of two elements of a sorted sequence the first had the smaller key, or the same key and the earlier
      place. */
  lemma {:induction false} SortedFrom<T>(s: seq<T>, key: T -> nat, a: nat, b: nat) returns (i: nat, j: nat)
    requires a < b < |StableSort(s, key)|
    ensures i < |s| && j < |s| && StableSort(s, key)[a] == s[i] && StableSort(s, key)[b] == s[j]
    ensures key(s[i]) < key(s[j]) || (key(s[i]) == key(s[j]) && i < j)
    decreases |s|
  {
    hide InsertByKey;
    var rest := s[1..];
    var tail := StableSort(rest, key);
    SortExact(rest, key, 0);
    var p := InsertPlace(s[0], tail, key);
    assert StableSort(s, key) == tail[..p] + [s[0]] + tail[p..];
    hide StableSort, SortedByKey, WithKey;
    if a == p {
      i, j := 0, PlaceIn(tail, rest, b - 1) + 1;
    } else if b == p {
      i, j := PlaceIn(tail, rest, a) + 1, 0;
    } else {
      i, j := SortedFrom(rest, key, if a < p then a else a - 1, if b < p then b else b - 1);
      i, j := i + 1, j + 1;
    }
  }

  lemma PlaceOf<T>(a: seq<T>, b: seq<T>, c: nat)
    requires multiset(a) == multiset(b) && c < |a|
    ensures exists k :: 0 <= k < |b| && b[k] == a[c]
  {
    assert a[c] in multiset(a) && a[c] in multiset(b);
  }

  /** Where an element of one sequence is in a permutation of it. */
  ghost function PlaceIn<T>(a: seq<T>, b: seq<T>, c: nat): (k: nat)
    requires multiset(a) == multiset(b) && c < |a|
    ensures k < |b| && b[k] == a[c]
  {
    PlaceOf(a, b, c);
    var k :| 0 <= k < |b| && b[k] == a[c];
    k
  }

  // ---- Admission ------------------------------------------------------------------------------

  function PolicyOrder(policy: Policy, queue: seq<Request>): seq<Request> {
    if policy == ShortestPrefillFirst then StableSort(queue, RemainingPrefill) else queue
  }

  function Unreserved(cfg: Config, active: seq<Request>): nat
    requires cfg.pageTokens > 0
  {
    Max(cfg.PageCapacity() - SumPages(active), 0)
  }

  datatype Admitted = Admitted(queue: seq<Request>, active: seq<Request>, ids: seq<RequestId>)

  /** One pass over the ordered queue. */
  function AdmitFrom(maxActive: nat, rest: seq<Request>, kept: seq<Request>, active: seq<Request>, available: nat,
                     ids: seq<RequestId>): Admitted
    decreases |rest|
  {
    if rest == [] then Admitted(kept, active, ids)
    else if rest[0].blocked then AdmitFrom(maxActive, rest[1..], kept + [rest[0]], active, available, ids)
    else if |active| >= maxActive || rest[0].maxPages > available then Admitted(kept + rest, active, ids)
    else AdmitFrom(maxActive, rest[1..], kept, active + [rest[0]], available - rest[0].maxPages, ids + [rest[0].id])
  }

  function Admit(cfg: Config, s: State): (State, seq<RequestId>)
    requires cfg.pageTokens > 0
  {
    if |s.active| >= cfg.maxActive then (s, [])
    else
      var a := AdmitFrom(cfg.maxActive, PolicyOrder(cfg.policy, s.queue), [], s.active, Unreserved(cfg, s.active), []);
      (s.(queue := a.queue, active := a.active), a.ids)
  }

  function Unblocked(s: seq<Request>): seq<Request> {
    if s == [] then [] else (if s[0].blocked then [] else [s[0]]) + Unblocked(s[1..])
  }

  function Blocked(s: seq<Request>): seq<Request> {
    if s == [] then [] else (if s[0].blocked then [s[0]] else []) + Blocked(s[1..])
  }

  /** n is the length of the longest prefix of u that fits the free slots and the free pages. */
  ghost predicate LongestFitting(u: seq<Request>, slots: nat, pages: nat, n: nat) {
    && n <= |u| && n <= slots && SumPages(u[..n]) <= pages
    && (n == |u| || n == slots || SumPages(u[..n + 1]) > pages)
  }

  lemma {:induction false} SumPagesConcat(a: seq<Request>, b: seq<Request>)
    ensures SumPages(a + b) == SumPages(a) + SumPages(b)
    decreases |b|
  {
    if b == [] {
      assert a + b == a;
    } else {
      SumPagesConcat(a, b[..|b| - 1]);
      assert (a + b)[..|a + b| - 1] == a + b[..|b| - 1];
    }
  }

  lemma FiltersStep(x: Request, s: seq<Request>)
    ensures Unblocked([x] + s) == (if x.blocked then [] else [x]) + Unblocked(s)
    ensures Blocked([x] + s) == (if x.blocked then [x] else []) + Blocked(s)
  {
    assert ([x] + s)[1..] == s;
  }

  lemma {:induction false} FiltersConcat(a: seq<Request>, b: seq<Request>)
    ensures Unblocked(a + b) == Unblocked(a) + Unblocked(b) && Blocked(a + b) == Blocked(a) + Blocked(b)
    decreases |a|
  {
    if a == [] {
      assert a + b == b;
    } else {
      hide Unblocked, Blocked;
      FiltersConcat(a[1..], b);
      FiltersStep(a[0], a[1..]);
      FiltersStep(a[0], a[1..] + b);
      assert a == [a[0]] + a[1..] && a + b == [a[0]] + (a[1..] + b);
    }
  }

  lemma {:induction false} FiltersPartition(s: seq<Request>)
    ensures multiset(Unblocked(s)) + multiset(Blocked(s)) == multiset(s)
    ensures forall r :: r in Unblocked(s) <==> r in s && !r.blocked
    decreases |s|
  {
    if s != [] {
      FiltersPartition(s[1..]);
      assert s == [s[0]] + s[1..];
      assert multiset(s) == multiset{s[0]} + multiset(s[1..]);
    }
  }

  /** A pass admits the longest fitting prefix of the unblocked requests and leaves the others in
      order. */
  lemma {:induction false} AdmitFromExact(maxActive: nat, rest: seq<Request>, kept: seq<Request>, active: seq<Request>,
                                          available: nat, ids: seq<RequestId>)
      returns (n: nat)
    requires |active| <= maxActive && (forall i :: 0 <= i < |kept| ==> kept[i].blocked)
    ensures LongestFitting(Unblocked(rest), maxActive - |active|, available, n)
    ensures var a := AdmitFrom(maxActive, rest, kept, active, available, ids);
            && a.active == active + Unblocked(rest)[..n] && a.ids == ids + Ids(Unblocked(rest)[..n])
            && Unblocked(a.queue) == Unblocked(rest)[n..] && Blocked(a.queue) == Blocked(kept + rest)
    decreases |rest|
  {
    hide LongestFitting, Unblocked, Blocked;
    if rest == [] || (!rest[0].blocked && (|active| >= maxActive || rest[0].maxPages > available)) {
      n := 0;
      AdmitStops(maxActive, rest, kept, active, available, ids);
    } else if rest[0].blocked {
      SkipBlocked(rest, kept);
      n := AdmitFromExact(maxActive, rest[1..], kept + [rest[0]], active, available, ids);
    } else {
      n := AdmitFromExact(maxActive, rest[1..], kept, active + [rest[0]], available - rest[0].maxPages, ids + [rest[0].id]);
      Fits(Unblocked(rest[1..]), maxActive - |active| - 1, available - rest[0].maxPages, n);
      AdmitOneMore(rest, kept, active, ids, n);
      FitsOneMore(rest, maxActive - |active| - 1, available - rest[0].maxPages, n);
      n := n + 1;
    }
  }

  lemma AdmitStops(maxActive: nat, rest: seq<Request>, kept: seq<Request>, active: seq<Request>, available: nat, ids: seq<RequestId>)
    requires |active| <= maxActive && (forall i :: 0 <= i < |kept| ==> kept[i].blocked)
    requires rest == [] || (!rest[0].blocked && (|active| >= maxActive || rest[0].maxPages > available))
    ensures var u := Unblocked(rest);
            && LongestFitting(u, maxActive - |active|, available, 0)
            && AdmitFrom(maxActive, rest, kept, active, available, ids) == Admitted(kept + rest, active, ids)
            && active + u[..0] == active && ids + Ids(u[..0]) == ids && u[0..] == u
            && Unblocked(kept + rest) == u
  {
    KeptFilters(kept);
    FiltersConcat(kept, rest);
    if rest == [] {
      assert kept + rest == kept;
    } else {
      assert Unblocked(rest)[..1] == [rest[0]] && [rest[0]][..0] == [];
    }
  }

  lemma SkipBlocked(rest: seq<Request>, kept: seq<Request>)
    requires rest != [] && rest[0].blocked
    ensures Unblocked(rest) == Unblocked(rest[1..]) && kept + [rest[0]] + rest[1..] == kept + rest
  {
  }

  lemma {:induction false} KeptFilters(kept: seq<Request>)
    requires forall i :: 0 <= i < |kept| ==> kept[i].blocked
    ensures Unblocked(kept) == [] && Blocked(kept) == kept
    decreases |kept|
  {
    if kept != [] { KeptFilters(kept[1..]); }
  }

  lemma AdmitOneMore(rest: seq<Request>, kept: seq<Request>, active: seq<Request>, ids: seq<RequestId>, n: nat)
    requires rest != [] && !rest[0].blocked && n <= |Unblocked(rest[1..])|
    ensures |Unblocked(rest)| == |Unblocked(rest[1..])| + 1
    ensures active + [rest[0]] + Unblocked(rest[1..])[..n] == active + Unblocked(rest)[..n + 1]
    ensures ids + [rest[0].id] + Ids(Unblocked(rest[1..])[..n]) == ids + Ids(Unblocked(rest)[..n + 1])
    ensures Unblocked(rest[1..])[n..] == Unblocked(rest)[n + 1..]
    ensures Blocked(kept + rest[1..]) == Blocked(kept + rest)
  {
    FirstUnblocked(rest);
    FiltersConcat(kept, rest);
    FiltersConcat(kept, rest[1..]);
    hide Unblocked, Blocked;
    SliceStep(rest[0], Unblocked(rest[1..]), n);
    var v := Unblocked(rest[1..]);
    IdsStep(rest[0], v[..n]);
    assert active + ([rest[0]] + v[..n]) == active + [rest[0]] + v[..n];
    assert ids + ([rest[0].id] + Ids(v[..n])) == ids + [rest[0].id] + Ids(v[..n]);
  }

  lemma FirstUnblocked(rest: seq<Request>)
    requires rest != [] && !rest[0].blocked
    ensures Unblocked(rest) == [rest[0]] + Unblocked(rest[1..]) && Blocked(rest) == Blocked(rest[1..])
  {
  }

  lemma SliceStep<T>(x: T, v: seq<T>, n: nat)
    requires n <= |v|
    ensures ([x] + v)[..n + 1] == [x] + v[..n] && ([x] + v)[n + 1..] == v[n..]
  {
  }

  lemma IdsStep(x: Request, v: seq<Request>)
    ensures Ids([x] + v) == [x.id] + Ids(v)
  {
  }

  lemma FitsOneMore(rest: seq<Request>, slots: nat, pages: nat, n: nat)
    requires rest != [] && !rest[0].blocked && LongestFitting(Unblocked(rest[1..]), slots, pages, n)
    ensures LongestFitting(Unblocked(rest), slots + 1, pages + rest[0].maxPages, n + 1)
  {
    var v := Unblocked(rest[1..]);
    assert Unblocked(rest) == [rest[0]] + v;
    assert Unblocked(rest)[..n + 1] == [rest[0]] + v[..n];
    SumPagesConcat([rest[0]], v[..n]);
    assert [rest[0]][..0] == [];
    if n < |v| {
      assert Unblocked(rest)[..n + 2] == [rest[0]] + v[..n + 1];
      SumPagesConcat([rest[0]], v[..n + 1]);
    }
  }

  /** Admission takes the longest prefix, in policy order, of the requests not waiting for a leader that
      fits the free slots and the unreserved pages. Nothing is lost, duplicated or reordered, and the
      reservations of active requests stay within the page capacity. */
  lemma AdmitExact(cfg: Config, s: State) returns (n: nat)
    requires cfg.pageTokens > 0
    ensures var (s', ids) := Admit(cfg, s);
            var u := Unblocked(PolicyOrder(cfg.policy, s.queue));
            && n <= |u| && s'.active == s.active + u[..n] && ids == Ids(u[..n])
            && (|s.active| < cfg.maxActive ==> LongestFitting(u, cfg.maxActive - |s.active|, Unreserved(cfg, s.active), n))
            && (|s.active| < cfg.maxActive ==> Unblocked(s'.queue) == u[n..] && Blocked(s'.queue) == Blocked(PolicyOrder(cfg.policy, s.queue)))
            && (|s.active| >= cfg.maxActive ==> n == 0 && s' == s)
            && multiset(s'.queue) + multiset(s'.active) == multiset(s.queue) + multiset(s.active)
            && (SumPages(s.active) <= cfg.PageCapacity() ==> SumPages(s'.active) <= cfg.PageCapacity())
            && s'.next == s.next && s'.coordination == s.coordination
  {
    hide LongestFitting, Unblocked, Blocked, PolicyOrder, AdmitFrom, SumPages;
    var order := PolicyOrder(cfg.policy, s.queue);
    var u := Unblocked(order);
    if |s.active| >= cfg.maxActive {
      n := 0;
      assert s.active + u[..0] == s.active;
    } else {
      n := AdmitPass(cfg, s);
      NothingLost(cfg, s, Admit(cfg, s).0, n);
    }
  }

  lemma AdmitPass(cfg: Config, s: State) returns (n: nat)
    requires cfg.pageTokens > 0 && |s.active| < cfg.maxActive
    ensures var (s', ids) := Admit(cfg, s);
            var u := Unblocked(PolicyOrder(cfg.policy, s.queue));
            && n <= |u| && s'.active == s.active + u[..n] && ids == Ids(u[..n])
            && LongestFitting(u, cfg.maxActive - |s.active|, Unreserved(cfg, s.active), n)
            && Unblocked(s'.queue) == u[n..] && Blocked(s'.queue) == Blocked(PolicyOrder(cfg.policy, s.queue))
            && (SumPages(s.active) <= cfg.PageCapacity() ==> SumPages(s'.active) <= cfg.PageCapacity())
            && s'.next == s.next && s'.coordination == s.coordination
  {
    hide LongestFitting, Unblocked, Blocked, PolicyOrder, AdmitFrom, SumPages;
    var order := PolicyOrder(cfg.policy, s.queue);
    var u := Unblocked(order);
    n := AdmitFromExact(cfg.maxActive, order, [], s.active, Unreserved(cfg, s.active), []);
    Fits(u, cfg.maxActive - |s.active|, Unreserved(cfg, s.active), n);
    assert [] + order == order && [] + Ids(u[..n]) == Ids(u[..n]);
    SumPagesConcat(s.active, u[..n]);
  }

  lemma Fits(u: seq<Request>, slots: nat, pages: nat, n: nat)
    requires LongestFitting(u, slots, pages, n)
    ensures n <= |u| && n <= slots && SumPages(u[..n]) <= pages
  {
  }

  lemma OrderPermutes(policy: Policy, queue: seq<Request>)
    ensures multiset(PolicyOrder(policy, queue)) == multiset(queue)
  {
    SortExact(queue, RemainingPrefill, 0);
  }

  lemma NothingLost(cfg: Config, s: State, s': State, n: nat)
    requires var order := PolicyOrder(cfg.policy, s.queue);
             var u := Unblocked(order);
             n <= |u| && s'.active == s.active + u[..n] && Unblocked(s'.queue) == u[n..] && Blocked(s'.queue) == Blocked(order)
    ensures multiset(s'.queue) + multiset(s'.active) == multiset(s.queue) + multiset(s.active)
  {
    hide Unblocked, Blocked, PolicyOrder;
    var order := PolicyOrder(cfg.policy, s.queue);
    var u := Unblocked(order);
    OrderPermutes(cfg.policy, s.queue);
    FiltersPartition(order);
    FiltersPartition(s'.queue);
    assert u == u[..n] + u[n..];
    assert multiset(u) == multiset(u[..n]) + multiset(u[n..]);
    assert multiset(s'.active) == multiset(s.active) + multiset(u[..n]);
  }

  lemma FirstFits(u: seq<Request>, slots: nat, pages: nat, n: nat)
    requires LongestFitting(u, slots, pages, n) && u != [] && slots > 0 && u[0].maxPages <= pages
    ensures n > 0
  {
    assert u[..1] == [u[0]] && [u[0]][..0] == [];
    assert SumPages(u[..1]) == u[0].maxPages;
  }

  /** With nothing active, an unblocked request waiting and every reservation within the capacity, the
      admission admits at least one request. */
  lemma AdmissionProgresses(cfg: Config, s: State, r: Request)
    requires cfg.pageTokens > 0 && cfg.maxActive > 0
    requires s.active == [] && r in s.queue && !r.blocked
    requires forall i :: 0 <= i < |s.queue| ==> s.queue[i].maxPages <= cfg.PageCapacity()
    ensures Admit(cfg, s).1 != [] && Admit(cfg, s).0.active != []
  {
    hide LongestFitting, Unblocked, Blocked, StableSort, AdmitFrom, PolicyOrder;
    var n := AdmitExact(cfg, s);
    var order := PolicyOrder(cfg.policy, s.queue);
    var u := Unblocked(order);
    OrderPermutes(cfg.policy, s.queue);
    FiltersPartition(order);
    assert r in multiset(order) && r in u;
    assert u[0] in u && u[0] in multiset(order) && u[0] in multiset(s.queue);
    FirstFits(u, cfg.maxActive - |s.active|, Unreserved(cfg, s.active), n);
  }

  // ---- Phases ---------------------------------------------------------------------------------

  function PositionFrom(s: seq<Request>, id: RequestId, i: nat): Option<nat>
    requires i <= |s|
    decreases |s| - i
  {
    if i == |s| then None else if s[i].id == id then Some(i) else PositionFrom(s, id, i + 1)
  }

  function Position(s: seq<Request>, id: RequestId): Option<nat> { PositionFrom(s, id, 0) }

  lemma {:induction false} PositionFound(s: seq<Request>, id: RequestId, i: nat)
    requires i <= |s|
    ensures match PositionFrom(s, id, i)
            case Some(k) => i <= k < |s| && s[k].id == id && forall j :: i <= j < k ==> s[j].id != id
            case None => forall j :: i <= j < |s| ==> s[j].id != id
    decreases |s| - i
  {
    if i < |s| && s[i].id != id { PositionFound(s, id, i + 1); }
  }

  datatype PhaseResult = PhaseOk(mustPublish: bool) | PhaseError(error: SchedulerError)

  function UpdatePhase(s: State, id: RequestId, phase: GenerationPhase): (State, PhaseResult) {
    match Position(s.active, id)
    case None => (s, PhaseError(ActiveRequestMissing))
    case Some(k) =>
      PositionFound(s.active, id, 0);
      var before := s.active[k];
      var counted := if phase.DecodePhase? then before.(generated := phase.generated) else before;
      match phase
      case FinishedPhase => (s.(active := s.active[..k] + s.active[k + 1..]), PhaseOk(false))
      case PrefillPhase(n) =>
        if before.phase.Decode? then (s, PhaseError(DecodeBackToPrefill))
        else (s.(active := s.active[k := counted.(phase := Prefill(n))]), PhaseOk(false))
      case DecodePhase(_) =>
        (s.(active := s.active[k := counted.(phase := Decode)]),
         PhaseOk(before.phase.Prefill? && s.coordination.Some? && RequiresPublication(s.coordination.value, id)))
  }

  function RemoveActive(s: State, id: RequestId): (State, Option<SchedulerError>) {
    match Position(s.active, id)
    case None => (s, Some(ActiveRequestMissing))
    case Some(k) =>
      PositionFound(s.active, id, 0);
      (s.(active := s.active[..k] + s.active[k + 1..]), None)
  }

  // ---- Queueing and coordination --------------------------------------------------------------

  /** The cache demand of a request: its final output token is never cached. */
  function CachedDemand(inputCount: nat, maxNew: nat): nat
    requires inputCount + maxNew > 0
  {
    inputCount + maxNew - 1
  }

  function Enqueue(cfg: Config, s: State, id: RequestId, input: seq<Token>, maxNew: nat, cached: nat): (State, Option<SchedulerError>)
    requires cfg.pageTokens > 0 && |input| + maxNew > 0
  {
    var added := if s.coordination.Some? then Some(Add(s.coordination.value, id, input)) else None;
    if added.Some? && added.value.admission.Refused? then (s, Some(FlightRefused(added.value.admission.error)))
    else
      var request := Request(id, CeilDiv(CachedDemand(|input|, maxNew), cfg.pageTokens), maxNew, Min(cached, Max(|input| - 1, 0)), 0,
                             Prefill(|input|), added.Some? && added.value.admission == Done(Follower));
      (s.(queue := s.queue + [request], coordination := if added.Some? then Some(added.value.flights) else None), None)
  }

  /** Makes queued requests runnable one after the other, and stops at the first that cannot be. */
  function Unblock(queue: seq<Request>, ids: seq<RequestId>): (seq<Request>, Option<SchedulerError>)
    decreases |ids|
  {
    if ids == [] then (queue, None)
    else
      match Position(queue, ids[0])
      case None => (queue, Some(QueuedRequestMissing))
      case Some(k) =>
        PositionFound(queue, ids[0], 0);
        if !queue[k].blocked then (queue, Some(NotBlocked))
        else Unblock(queue[k := queue[k].(blocked := false)], ids[1..])
  }

  function Wake(s: State, step: FlightStep): (State, Option<SchedulerError>) {
    match step.runnable
    case Refused(e) => (s.(coordination := Some(step.flights)), Some(FlightRefused(e)))
    case Done(ids) =>
      var (queue, error) := Unblock(s.queue, ids);
      (s.(queue := queue, coordination := Some(step.flights)), error)
  }

  /** `complete_request` and `abort_request`. */
  function Terminate(s: State, id: RequestId, how: Termination): (State, Option<SchedulerError>) {
    if s.coordination.None? then (s, None) else Wake(s, Remove(s.coordination.value, id, how))
  }

  function ReleasePrefixFlight(s: State, id: RequestId): (State, Option<SchedulerError>) {
    if s.coordination.None? then (s, None) else Wake(s, ReleaseAfterPublication(s.coordination.value, id))
  }
}
