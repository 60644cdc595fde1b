/** The reservation protocol between the router and the backends' workers, step by step: a routed
    request is reserved load until its worker has published a snapshot with it, in every interleaving
    of routing, dispatch, drop, enqueue and publication. */
module RoutingReservations {
  import opened Common
  import opened RoutingSpec

  /** A reservation that was neither dropped nor released yet. */
  datatype Reservation = Reservation(id: RequestId, backend: nat, load: Load)

  /** A worker's requests, those its last snapshot counts, and the one it has enqueued without having
      published it yet. */
  datatype WorkerView = WorkerView(accepted: set<RequestId>, published: set<RequestId>, arriving: Option<RequestId>)

  datatype System = System(routing: RoutingState, held: seq<Reservation>, workers: seq<WorkerView>)

  function SumFor(held: seq<Reservation>, b: nat): Load {
    if held == [] then NO_LOAD
    else Plus(SumFor(held[..|held| - 1], b), if Last(held).backend == b then Last(held).load else NO_LOAD)
  }

  ghost predicate IsHeld(held: seq<Reservation>, id: RequestId) { exists i :: 0 <= i < |held| && held[i].id == id }

  ghost predicate HeldFor(held: seq<Reservation>, id: RequestId, b: nat) {
    exists i :: 0 <= i < |held| && held[i].id == id && held[i].backend == b
  }

  ghost predicate OneReservationEach(held: seq<Reservation>) {
    forall i, j :: 0 <= i < j < |held| ==> held[i].id != held[j].id
  }

  /** The requests on a worker's side of the protocol. */
  ghost predicate Seen(w: WorkerView, id: RequestId) { id in w.accepted || id in w.published }

  /** One backend: its reserved load is the sum of its reservations, and every request its worker has is
      in the last snapshot, or it is just arriving and still reserved. */
  ghost predicate BackendOk(sys: System, b: nat)
    requires b < |sys.workers| == |sys.routing.backends|
  {
    var w := sys.workers[b];
    && sys.routing.backends[b].reserved == SumFor(sys.held, b)
    && (w.arriving.Some? ==> w.arriving.value in w.accepted && HeldFor(sys.held, w.arriving.value, b))
    && (forall id :: id in w.accepted ==> id in w.published || w.arriving == Some(id))
    && (forall id :: id in w.published ==> !IsHeld(sys.held, id))
  }

  ghost predicate ProtocolOk(sys: System) {
    && |sys.workers| == |sys.routing.backends|
    && OneReservationEach(sys.held)
    && (forall i :: 0 <= i < |sys.held| ==> sys.held[i].backend < |sys.workers|)
    && (forall b: nat {:trigger BackendOk(sys, b)} :: b < |sys.workers| ==> BackendOk(sys, b))
    && (forall b: nat, c: nat, id: RequestId {:trigger Seen(sys.workers[b], id), Seen(sys.workers[c], id)} ::
          b < c < |sys.workers| ==> !(Seen(sys.workers[b], id) && Seen(sys.workers[c], id)))
  }

  datatype ProtocolStep =
    | RouteStep(id: RequestId, backend: nat, load: Load)
    | DropStep(index: nat)
    | EnqueueStep(index: nat)
    | HandOverStep(backend: nat)
    | LeaveStep(backend: nat, id: RequestId)
    | PublishStep(backend: nat)

  /** A new request is routed; a reservation is dropped before its request is enqueued; a worker that is
      not just handing a request over enqueues one, lets one leave, or publishes. */
  ghost predicate Enabled(sys: System, step: ProtocolStep) {
    && |sys.workers| == |sys.routing.backends|
    && match step
       case RouteStep(id, b, _) =>
         b < |sys.workers| && !IsHeld(sys.held, id) && forall c :: 0 <= c < |sys.workers| ==> !Seen(sys.workers[c], id)
       case DropStep(k) =>
         k < |sys.held| && sys.held[k].backend < |sys.workers| && sys.workers[sys.held[k].backend].arriving != Some(sys.held[k].id)
       case EnqueueStep(k) =>
         k < |sys.held| && sys.held[k].backend < |sys.workers| && sys.workers[sys.held[k].backend].arriving == None
       case HandOverStep(b) => b < |sys.workers| && sys.workers[b].arriving.Some?
       case LeaveStep(b, id) => b < |sys.workers| && sys.workers[b].arriving == None && id in sys.workers[b].accepted
       case PublishStep(b) => b < |sys.workers| && sys.workers[b].arriving == None
  }

  function FindHeld(held: seq<Reservation>, id: RequestId): (k: nat)
    ensures k <= |held| && (k < |held| ==> held[k].id == id) && forall i :: 0 <= i < k ==> held[i].id != id
  {
    if held == [] then 0 else if held[0].id == id then 0 else FindHeld(held[1..], id) + 1
  }

  function WithoutHeld(held: seq<Reservation>, k: nat): seq<Reservation>
    requires k < |held|
  {
    held[..k] + held[k + 1..]
  }

  /** Takes a reservation back; that the reserved load covers it is part of the result. */
  ghost function TakeBack(sys: System, k: nat): System
    requires k < |sys.held| && sys.held[k].backend < |sys.routing.backends|
  {
    var r := sys.held[k];
    var reserved := sys.routing.backends[r.backend].reserved;
    System(if Within(r.load, reserved) then Release(sys.routing, r.backend, r.load) else sys.routing,
           WithoutHeld(sys.held, k), sys.workers)
  }

  ghost function After(sys: System, step: ProtocolStep): System
    requires Enabled(sys, step)
  {
    match step
    case RouteStep(id, b, load) =>
      sys.(routing := Reserve(RecordSelection(sys.routing, b), b, load), held := sys.held + [Reservation(id, b, load)])
    case DropStep(k) => TakeBack(sys, k)
    case EnqueueStep(k) =>
      var r := sys.held[k];
      var w := sys.workers[r.backend];
      sys.(workers := sys.workers[r.backend := w.(accepted := w.accepted + {r.id}, arriving := Some(r.id))])
    case HandOverStep(b) =>
      var w := sys.workers[b];
      var k := FindHeld(sys.held, w.arriving.value);
      var published := sys.(workers := sys.workers[b := w.(published := w.accepted, arriving := None)]);
      if k < |sys.held| && sys.held[k].backend == b then TakeBack(published, k) else published
    case LeaveStep(b, id) => sys.(workers := sys.workers[b := sys.workers[b].(accepted := sys.workers[b].accepted - {id})])
    case PublishStep(b) => sys.(workers := sys.workers[b := sys.workers[b].(published := sys.workers[b].accepted)])
  }

  // ---- Sums -----------------------------------------------------------------------------------

  lemma AppendSum(held: seq<Reservation>, r: Reservation, b: nat)
    ensures SumFor(held + [r], b) == Plus(SumFor(held, b), if r.backend == b then r.load else NO_LOAD)
  {
    assert (held + [r])[..|held|] == held;
  }

  lemma SumNothing(b: nat)
    ensures SumFor([], b) == NO_LOAD
  {
  }

  lemma {:induction false} SumConcat(x: seq<Reservation>, y: seq<Reservation>, b: nat)
    ensures SumFor(x + y, b) == Plus(SumFor(x, b), SumFor(y, b))
    decreases |y|
  {
    hide SumFor;
    if y == [] {
      SumNothing(b);
      assert x + y == x;
    } else {
      var before, r := y[..|y| - 1], Last(y);
      SumConcat(x, before, b);
      AppendSum(x + before, r, b);
      AppendSum(before, r, b);
      assert y == before + [r] && x + y == (x + before) + [r];
    }
  }

  lemma SumWithout(held: seq<Reservation>, k: nat, b: nat)
    requires k < |held|
    ensures SumFor(held, b) == Plus(SumFor(WithoutHeld(held, k), b), if held[k].backend == b then held[k].load else NO_LOAD)
  {
    hide SumFor;
    var before, after := held[..k], held[k + 1..];
    assert held == (before + [held[k]]) + after;
    SumConcat(before + [held[k]], after, b);
    AppendSum(before, held[k], b);
    SumConcat(before, after, b);
  }

  // ---- The steps keep the protocol ------------------------------------------------------------

  lemma RouteKeepsOk(sys: System, id: RequestId, b: nat, load: Load)
    requires ProtocolOk(sys) && Enabled(sys, RouteStep(id, b, load))
    ensures ProtocolOk(After(sys, RouteStep(id, b, load)))
  {
    hide SumFor;
    var sys' := After(sys, RouteStep(id, b, load));
    var r := Reservation(id, b, load);
    assert sys'.held == sys.held + [r] && sys'.workers == sys.workers;
    forall c: nat | c < |sys'.workers| ensures BackendOk(sys', c) {
      assert BackendOk(sys, c);
      AppendSum(sys.held, r, c);
      HeldAppended(sys.held, r);
      assert !Seen(sys.workers[c], id);
    }
  }

  lemma HeldAppended(held: seq<Reservation>, r: Reservation)
    ensures forall x :: IsHeld(held + [r], x) <==> IsHeld(held, x) || x == r.id
    ensures forall x, c :: HeldFor(held, x, c) ==> HeldFor(held + [r], x, c)
  {
    var both := held + [r];
    forall x ensures IsHeld(both, x) <==> IsHeld(held, x) || x == r.id {
      if i :| 0 <= i < |held| && held[i].id == x { assert both[i].id == x; }
      assert both[|held|] == r;
    }
    forall x, c | HeldFor(held, x, c) ensures HeldFor(both, x, c) {
      var i :| 0 <= i < |held| && held[i].id == x && held[i].backend == c;
      assert both[i] == held[i];
    }
  }

  lemma HeldWithout(held: seq<Reservation>, k: nat)
    requires k < |held| && OneReservationEach(held)
    ensures OneReservationEach(WithoutHeld(held, k))
    ensures forall x :: IsHeld(WithoutHeld(held, k), x) <==> IsHeld(held, x) && x != held[k].id
    ensures forall x, c :: x != held[k].id ==> (HeldFor(WithoutHeld(held, k), x, c) <==> HeldFor(held, x, c))
    ensures forall i :: 0 <= i < |held| - 1 ==> WithoutHeld(held, k)[i] == held[if i < k then i else i + 1]
  {
    var rest := WithoutHeld(held, k);
    forall x ensures IsHeld(rest, x) <==> IsHeld(held, x) && x != held[k].id {
      if i :| 0 <= i < |rest| && rest[i].id == x { assert held[if i < k then i else i + 1].id == x; }
      if i :| 0 <= i < |held| && held[i].id == x && i != k { assert rest[if i < k then i else i - 1].id == x; }
    }
    forall x, c | x != held[k].id ensures HeldFor(rest, x, c) <==> HeldFor(held, x, c) {
      if i :| 0 <= i < |rest| && rest[i].id == x && rest[i].backend == c { assert held[if i < k then i else i + 1] == rest[i]; }
      if i :| 0 <= i < |held| && held[i].id == x && held[i].backend == c { assert rest[if i < k then i else i - 1] == held[i]; }
    }
  }

  /** Reserved loads cover what is taken back, so a release never underflows. */
  lemma TakeBackCovered(sys: System, k: nat)
    requires k < |sys.held| && sys.held[k].backend < |sys.routing.backends|
    requires sys.routing.backends[sys.held[k].backend].reserved == SumFor(sys.held, sys.held[k].backend)
    ensures Within(sys.held[k].load, sys.routing.backends[sys.held[k].backend].reserved)
    ensures TakeBack(sys, k).routing == Release(sys.routing, sys.held[k].backend, sys.held[k].load)
  {
    SumWithout(sys.held, k, sys.held[k].backend);
  }

  /** Taking back the reservation of a request that the backend's worker is not about to publish, or has
      just published. */
  lemma TakeBackKeepsOk(sys: System, k: nat)
    requires |sys.workers| == |sys.routing.backends| && OneReservationEach(sys.held) && k < |sys.held|
    requires forall i :: 0 <= i < |sys.held| ==> sys.held[i].backend < |sys.workers|
    requires forall b: nat {:trigger sys.workers[b]} :: b < |sys.workers| ==> TakesBack(sys, k, b)
    requires forall b: nat, c: nat, id: RequestId {:trigger Seen(sys.workers[b], id), Seen(sys.workers[c], id)} ::
               b < c < |sys.workers| ==> !(Seen(sys.workers[b], id) && Seen(sys.workers[c], id))
    ensures ProtocolOk(TakeBack(sys, k))
  {
    hide SumFor, IsHeld, HeldFor;
    var sys', r := TakeBack(sys, k), sys.held[k];
    assert TakesBack(sys, k, r.backend) by { var w := sys.workers[r.backend]; }
    TakeBackCovered(sys, k);
    HeldWithout(sys.held, k);
    forall b: nat | b < |sys'.workers| ensures BackendOk(sys', b) {
      var w := sys.workers[b];
      assert TakesBack(sys, k, b);
      SumWithout(sys.held, k, b);
    }
  }

  /** A backend before one reservation is taken back: nothing else is held and published. */
  ghost predicate TakesBack(sys: System, k: nat, b: nat)
    requires b < |sys.workers| == |sys.routing.backends| && k < |sys.held|
  {
    var (w, id) := (sys.workers[b], sys.held[k].id);
    && sys.routing.backends[b].reserved == SumFor(sys.held, b)
    && (w.arriving.Some? ==> w.arriving.value in w.accepted && HeldFor(sys.held, w.arriving.value, b) && w.arriving.value != id)
    && (forall x :: x in w.accepted ==> x in w.published || w.arriving == Some(x))
    && (forall x :: x in w.published && IsHeld(sys.held, x) ==> x == id)
  }

  lemma DropKeepsOk(sys: System, k: nat)
    requires ProtocolOk(sys) && Enabled(sys, DropStep(k))
    ensures ProtocolOk(After(sys, DropStep(k)))
  {
    hide SumFor, IsHeld;
    var r := sys.held[k];
    forall b: nat | b < |sys.workers| ensures TakesBack(sys, k, b) {
      assert BackendOk(sys, b);
      if sys.workers[b].arriving == Some(r.id) { OneBackend(sys.held, k, r.id, b); }
    }
    TakeBackKeepsOk(sys, k);
  }

  lemma OneBackend(held: seq<Reservation>, k: nat, id: RequestId, b: nat)
    requires OneReservationEach(held) && k < |held| && held[k].id == id && HeldFor(held, id, b)
    ensures held[k].backend == b
  {
  }

  lemma EnqueueKeepsOk(sys: System, k: nat)
    requires ProtocolOk(sys) && Enabled(sys, EnqueueStep(k))
    ensures ProtocolOk(After(sys, EnqueueStep(k)))
  {
    hide SumFor;
    var sys', r := After(sys, EnqueueStep(k)), sys.held[k];
    NobodyElseSees(sys, k);
    forall b: nat | b < |sys'.workers| ensures BackendOk(sys', b) {
      assert BackendOk(sys, b);
      assert HeldFor(sys.held, r.id, r.backend);
    }
    forall b: nat, c: nat, id: RequestId | b < c < |sys'.workers|
      ensures !(Seen(sys'.workers[b], id) && Seen(sys'.workers[c], id))
    {
      assert !(Seen(sys.workers[b], id) && Seen(sys.workers[c], id));
      if id == r.id { assert BackendOk(sys, b) && BackendOk(sys, c); }
    }
  }

  /** A reserved request is in no other backend's worker. */
  lemma NobodyElseSees(sys: System, k: nat)
    requires ProtocolOk(sys) && k < |sys.held|
    ensures forall b: nat :: b < |sys.workers| && b != sys.held[k].backend ==> !Seen(sys.workers[b], sys.held[k].id)
  {
    hide SumFor;
    var r := sys.held[k];
    forall b: nat | b < |sys.workers| && b != r.backend ensures !Seen(sys.workers[b], r.id) {
      assert BackendOk(sys, b) && IsHeld(sys.held, r.id);
      if sys.workers[b].arriving == Some(r.id) { OneBackend(sys.held, k, r.id, b); }
    }
  }

  lemma HandOverKeepsOk(sys: System, b: nat)
    requires ProtocolOk(sys) && Enabled(sys, HandOverStep(b))
    ensures ProtocolOk(After(sys, HandOverStep(b)))
    ensures !IsHeld(After(sys, HandOverStep(b)).held, sys.workers[b].arriving.value)
    ensures sys.workers[b].arriving.value in After(sys, HandOverStep(b)).workers[b].published
  {
    hide SumFor;
    assert BackendOk(sys, b);
    var id := sys.workers[b].arriving.value;
    var k := FindHeld(sys.held, id);
    assert k < |sys.held|;
    OneBackend(sys.held, k, id, b);
    var w := sys.workers[b];
    var published := sys.(workers := sys.workers[b := w.(published := w.accepted, arriving := None)]);
    forall c: nat | c < |published.workers| ensures TakesBack(published, k, c) {
      assert BackendOk(sys, c);
      if c != b && sys.workers[c].arriving == Some(id) { OneBackend(sys.held, k, id, c); }
    }
    forall c: nat, d: nat, x: RequestId | c < d < |published.workers|
      ensures !(Seen(published.workers[c], x) && Seen(published.workers[d], x))
    {
      assert !(Seen(sys.workers[c], x) && Seen(sys.workers[d], x));
    }
    TakeBackKeepsOk(published, k);
    HeldWithout(sys.held, k);
  }

  lemma WorkerStepKeepsOk(sys: System, step: ProtocolStep)
    requires ProtocolOk(sys) && Enabled(sys, step) && (step.LeaveStep? || step.PublishStep?)
    ensures ProtocolOk(After(sys, step))
  {
    hide SumFor;
    var sys' := After(sys, step);
    forall b: nat | b < |sys'.workers| ensures BackendOk(sys', b) { assert BackendOk(sys, b); }
    forall b: nat, c: nat, id: RequestId | b < c < |sys'.workers|
      ensures !(Seen(sys'.workers[b], id) && Seen(sys'.workers[c], id))
    {
      assert !(Seen(sys.workers[b], id) && Seen(sys.workers[c], id));
    }
  }

  lemma StepKeepsOk(sys: System, step: ProtocolStep)
    requires ProtocolOk(sys) && Enabled(sys, step)
    ensures ProtocolOk(After(sys, step))
  {
    hide ProtocolOk;
    match step
    case RouteStep(id, b, load) => RouteKeepsOk(sys, id, b, load);
    case DropStep(k) => DropKeepsOk(sys, k);
    case EnqueueStep(k) => EnqueueKeepsOk(sys, k);
    case HandOverStep(b) => HandOverKeepsOk(sys, b);
    case LeaveStep(_, _) => WorkerStepKeepsOk(sys, step);
    case PublishStep(_) => WorkerStepKeepsOk(sys, step);
  }

  ghost predicate IsProtocolRun(states: seq<System>, steps: seq<ProtocolStep>) {
    |states| == |steps| + 1 && forall i :: 0 <= i < |steps| ==> ProtocolRunStep(states, steps, i)
  }

  ghost predicate ProtocolRunStep(states: seq<System>, steps: seq<ProtocolStep>, i: nat)
    requires |states| == |steps| + 1 && i < |steps|
  {
    Enabled(states[i], steps[i]) && states[i + 1] == After(states[i], steps[i])
  }

  lemma {:induction false} RunKeepsOk(states: seq<System>, steps: seq<ProtocolStep>, n: nat)
    requires IsProtocolRun(states, steps) && ProtocolOk(states[0]) && n <= |steps|
    ensures ProtocolOk(states[n])
    decreases n
  {
    hide ProtocolOk;
    if n > 0 {
      RunKeepsOk(states, steps, n - 1);
      assert ProtocolRunStep(states, steps, n - 1);
      StepKeepsOk(states[n - 1], steps[n - 1]);
    }
  }

  // ---- Counting -------------------------------------------------------------------------------

  /** Whether a router sees a request at backend b, as reserved load or in the snapshot. */
  ghost predicate Counted(sys: System, id: RequestId, b: nat)
    requires b < |sys.workers|
  {
    HeldFor(sys.held, id, b) || id in sys.workers[b].published
  }

  /** In every reachable state each request is counted at most once: as reserved load or in a snapshot,
      at one backend; and a request its worker has is counted there. So it is counted exactly once from
      its routing until it is dropped or a snapshot without it is published. */
  lemma CountedOnce(sys: System, id: RequestId, b: nat, c: nat)
    requires ProtocolOk(sys) && b < |sys.workers| && c < |sys.workers|
    ensures !(HeldFor(sys.held, id, b) && id in sys.workers[c].published)
    ensures Counted(sys, id, b) && Counted(sys, id, c) ==> b == c
    ensures id in sys.workers[b].accepted || HeldFor(sys.held, id, b) ==> Counted(sys, id, b)
  {
    hide SumFor;
    assert BackendOk(sys, b) && BackendOk(sys, c);
    if HeldFor(sys.held, id, b) {
      var k :| 0 <= k < |sys.held| && sys.held[k].id == id && sys.held[k].backend == b;
      assert IsHeld(sys.held, id);
      if HeldFor(sys.held, id, c) { OneBackend(sys.held, k, id, c); }
    } else if HeldFor(sys.held, id, c) {
      assert IsHeld(sys.held, id);
    }
    if b < c { assert !(Seen(sys.workers[b], id) && Seen(sys.workers[c], id)); }
    if c < b { assert !(Seen(sys.workers[c], id) && Seen(sys.workers[b], id)); }
  }

  /** Nothing but a drop of its reservation, or a publication by its worker after it left, stops a
      request from being counted at its backend. */
  lemma StaysCounted(sys: System, step: ProtocolStep, id: RequestId, b: nat)
    requires ProtocolOk(sys) && Enabled(sys, step) && b < |sys.workers| && Counted(sys, id, b)
    ensures Counted(After(sys, step), id, b) <==>
            !((step.DropStep? && sys.held[step.index].id == id) ||
              (step == PublishStep(b) && id in sys.workers[b].published && id !in sys.workers[b].accepted) ||
              (step == HandOverStep(b) && id in sys.workers[b].published && id !in sys.workers[b].accepted))
  {
    hide SumFor;
    assert BackendOk(sys, b);
    match step
    case RouteStep(x, c, load) => HeldAppended(sys.held, Reservation(x, c, load));
    case DropStep(k) => DropCounts(sys, k, id, b);
    case HandOverStep(c) => HandOverCounts(sys, c, id, b);
    case _ =>
      CountedOnce(sys, id, b, b);
  }

  lemma DropCounts(sys: System, k: nat, id: RequestId, b: nat)
    requires ProtocolOk(sys) && Enabled(sys, DropStep(k)) && b < |sys.workers| && Counted(sys, id, b)
    ensures Counted(After(sys, DropStep(k)), id, b) <==> sys.held[k].id != id
  {
    hide SumFor;
    assert BackendOk(sys, b);
    HeldWithout(sys.held, k);
    if sys.held[k].id == id {
      assert IsHeld(sys.held, id);
      var rest := WithoutHeld(sys.held, k);
      assert !IsHeld(rest, id) && !HeldFor(rest, id, b);
    }
  }

  lemma HandOverCounts(sys: System, c: nat, id: RequestId, b: nat)
    requires ProtocolOk(sys) && Enabled(sys, HandOverStep(c)) && b < |sys.workers| && Counted(sys, id, b)
    ensures Counted(After(sys, HandOverStep(c)), id, b) <==>
            !(c == b && id in sys.workers[b].published && id !in sys.workers[b].accepted)
  {
    hide SumFor;
    assert BackendOk(sys, c) && BackendOk(sys, b);
    var x := sys.workers[c].arriving.value;
    var k := FindHeld(sys.held, x);
    OneBackend(sys.held, k, x, c);
    HeldWithout(sys.held, k);
    CountedOnce(sys, id, b, c);
    if HeldFor(sys.held, id, b) && id == x { OneBackend(sys.held, k, x, b); }
  }

  /** What each step moves: routing reserves the request at its backend, a drop or a hand-over gives one
      reservation back, enqueuing gives a request to its worker and leaving takes one from it, a publication
      makes the snapshot what the worker has, and everything else stays where it is. */
  lemma StepMoves(sys: System, step: ProtocolStep, id: RequestId, b: nat)
    requires ProtocolOk(sys) && Enabled(sys, step) && b < |sys.workers|
    ensures var (sys', w) := (After(sys, step), sys.workers[b]);
            && |sys'.workers| == |sys.workers|
            && var w' := sys'.workers[b];
               && (HeldFor(sys'.held, id, b) <==>
                     match step
                     case RouteStep(x, c, _) => HeldFor(sys.held, id, b) || (x == id && c == b)
                     case DropStep(k) => HeldFor(sys.held, id, b) && sys.held[k].id != id
                     case HandOverStep(c) => HeldFor(sys.held, id, b) && sys.workers[c].arriving != Some(id)
                     case _ => HeldFor(sys.held, id, b))
               && (id in w'.accepted <==>
                     match step
                     case EnqueueStep(k) => id in w.accepted || (sys.held[k].id == id && sys.held[k].backend == b)
                     case LeaveStep(c, x) => id in w.accepted && !(c == b && x == id)
                     case _ => id in w.accepted)
               && w'.published == (if step == HandOverStep(b) || step == PublishStep(b) then w.accepted else w.published)
               && w'.arriving == (if step.EnqueueStep? && sys.held[step.index].backend == b then Some(sys.held[step.index].id)
                                  else if step == HandOverStep(b) then None else w.arriving)
  {
    hide SumFor;
    match step
    case RouteStep(x, c, load) => HeldWith(sys.held, Reservation(x, c, load), id, b);
    case DropStep(k) => HeldWithoutIt(sys.held, k, id, b);
    case HandOverStep(c) =>
      assert BackendOk(sys, c);
      var x := sys.workers[c].arriving.value;
      var k := FindHeld(sys.held, x);
      OneBackend(sys.held, k, x, c);
      HeldWithoutIt(sys.held, k, id, b);
    case _ =>
  }

  lemma HeldWith(held: seq<Reservation>, r: Reservation, id: RequestId, b: nat)
    ensures HeldFor(held + [r], id, b) <==> HeldFor(held, id, b) || (r.id == id && r.backend == b)
  {
    var both := held + [r];
    if i :| 0 <= i < |both| && both[i].id == id && both[i].backend == b {
      if i < |held| { assert held[i] == both[i]; }
    }
    if i :| 0 <= i < |held| && held[i].id == id && held[i].backend == b { assert both[i] == held[i]; }
    assert both[|held|] == r;
  }

  lemma HeldWithoutIt(held: seq<Reservation>, k: nat, id: RequestId, b: nat)
    requires k < |held| && OneReservationEach(held)
    ensures HeldFor(WithoutHeld(held, k), id, b) <==> HeldFor(held, id, b) && held[k].id != id
  {
    HeldWithout(held, k);
    var rest := WithoutHeld(held, k);
    if held[k].id == id && HeldFor(rest, id, b) { assert IsHeld(rest, id); }
  }

  /** The requests reserved at one backend. */
  function HeldIds(held: seq<Reservation>, b: nat): (ids: set<RequestId>)
    ensures forall id :: id in ids <==> HeldFor(held, id, b)
  {
    set i | 0 <= i < |held| && held[i].backend == b :: held[i].id
  }

  lemma HeldIdsAppended(held: seq<Reservation>, r: Reservation, b: nat)
    ensures HeldIds(held + [r], b) == HeldIds(held, b) + if r.backend == b then {r.id} else {}
  {
    var both := held + [r];
    forall id ensures HeldFor(both, id, b) <==> HeldFor(held, id, b) || (r.backend == b && id == r.id) { HeldWith(held, r, id, b); }
  }

  lemma NewestApart(held: seq<Reservation>, r: Reservation, b: nat)
    requires OneReservationEach(held + [r])
    ensures OneReservationEach(held) && r.id !in HeldIds(held, b)
  {
    var both := held + [r];
    forall i, j | 0 <= i < j < |held| ensures held[i].id != held[j].id { assert both[i] == held[i] && both[j] == held[j]; }
    forall i | 0 <= i < |held| ensures held[i].id != r.id { assert both[i] == held[i] && both[|held|] == r; }
  }

  lemma {:induction false} OneRequestEach(held: seq<Reservation>, b: nat)
    requires OneReservationEach(held) && forall i :: 0 <= i < |held| ==> held[i].load.requests == 1
    ensures SumFor(held, b).requests == |HeldIds(held, b)|
    decreases |held|
  {
    hide SumFor, OneReservationEach, HeldFor;
    if held == [] {
      SumNothing(b);
      assert HeldIds(held, b) == {};
    } else {
      var before, r := held[..|held| - 1], Last(held);
      assert held == before + [r];
      NewestApart(before, r, b);
      OneRequestEach(before, b);
      HeldIdsAppended(before, r, b);
      AppendSum(before, r, b);
    }
  }

  /** The number of requests a router sees at a backend is the number of requests counted there. */
  lemma RequestsSeen(sys: System, b: nat)
    requires ProtocolOk(sys) && b < |sys.workers|
    requires forall i :: 0 <= i < |sys.held| ==> sys.held[i].load.requests == 1
    ensures var counted := sys.workers[b].published + HeldIds(sys.held, b);
            && (forall id :: id in counted <==> Counted(sys, id, b))
            && |sys.workers[b].published| + sys.routing.backends[b].reserved.requests == |counted|
  {
    hide SumFor;
    assert BackendOk(sys, b);
    OneRequestEach(sys.held, b);
    var published, reserved := sys.workers[b].published, HeldIds(sys.held, b);
    forall id | id in reserved ensures id !in published {
      CountedOnce(sys, id, b, b);
    }
    assert |published + reserved| == |published| + |reserved| by { assert published !! reserved; }
  }
}
