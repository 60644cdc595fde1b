/** Generation on the real caches: the scheduler, both models' paged caches and the progress of every
    request, over every interleaving of generation steps, layer by layer. Here nothing is assumed about
    the cache operations: that appends stay within the reservation, that rollbacks stay above what was
    published and that publication finds equal layers follows from the generation steps. */
module GenerationRuns {
  import opened Common
  import opened PagedCacheSpec
  import opened CacheInvariant
  import opened CacheAppend
  import CacheRelease
  import opened PrefixCacheFlight
  import opened SchedulerSpec
  import opened SchedulerRuns
  import opened CacheService
  import opened CacheEffects
  import opened GenerationLengths
  import opened ServingRuns

  /** What a submitted request asked for. */
  datatype Wanted = Wanted(inputCount: nat, maxNew: nat)

  /** Requests that are active but not in `progress` were admitted and not started yet. */
  datatype Serving = Serving(g: System, progress: map<RequestId, Progress>, wanted: map<RequestId, Wanted>)
  {
    predicate Drafted() { g.draft.Some? }
  }

  function CacheOn(g: System, side: Side): Cache
    requires side == Draft ==> g.draft.Some?
  {
    if side == Target then g.target else g.draft.value
  }

  function OnSide(side: Side, id: RequestId, op: CacheOp): SystemOp {
    if side == Target then OnTarget(id, op) else OnDraft(id, op)
  }

  datatype GenerationOp =
    | Book(op: SystemOp)
    | AdmitAll
    | Begin(id: RequestId, input: seq<Token>)
    | Advance(id: RequestId, control: Control)
    | FillLayer(id: RequestId, side: Side, values: seq<KvEntry>)
    | PublishNow(id: RequestId, tokens: seq<Token>)
    | Depart(id: RequestId, how: Termination)

  /** The order in which the worker and the generation loop do things. No condition mentions a cache but
      for the number of entries a model produces: one for each token of the due pass. */
  ghost predicate Enabled(cfg: Config, w: Serving, op: GenerationOp) {
    match op
    case Book(o) => (o.Submit? || o.Progress? || o.ReleaseFlight?) && OpAllowed(cfg, w.g, o)
    case AdmitAll => true
    case Begin(id, input) =>
      Holds(w.g.t.s.active, id) && id !in w.progress && id in w.wanted && |input| == w.wanted[id].inputCount
    case Advance(id, control) => id in w.progress && LengthsOk(w.progress[id], w.Drafted()) && MayDo(w.progress[id], w.Drafted(), control)
    case FillLayer(id, side, values) =>
      && id in w.progress && (side == Draft ==> w.Drafted())
      && Due(w.progress[id], side) > 0 && |values| == Due(w.progress[id], side)
    case PublishNow(id, tokens) => id in w.progress && w.progress[id].work.Idle? && |tokens| == w.progress[id].committed
    case Depart(id, _) => Holds(w.g.t.s.active, id)
  }

  /** The same operation on both models, target first. */
  function OnBoth(drafted: bool, id: RequestId, op: CacheOp): seq<SystemOp> {
    [OnTarget(id, op)] + if drafted then [OnDraft(id, op)] else []
  }

  /** The operations on the scheduler and the caches that make up one operation of the run. */
  ghost function Expand(w: Serving, op: GenerationOp): seq<SystemOp> {
    match op
    case Book(o) => [o]
    case AdmitAll => [AdmitAndStart]
    case Begin(id, input) => OnBoth(w.Drafted(), id, RestoreC(if input == [] then [] else input[..|input| - 1]))
    case Advance(id, control) =>
      if control.CompleteSpeculation? && id in w.progress && w.progress[id].committed > 0 then
        OnBoth(w.Drafted(), id, TruncateC(Retained(w.progress[id], control.accepted, control.replaced)))
      else []
    case FillLayer(id, side, values) => if id in w.progress then [OnSide(side, id, AppendC(w.progress[id].On(side).layers, values))] else []
    case PublishNow(id, tokens) => OnBoth(w.Drafted(), id, PublishC(tokens))
    case Depart(id, how) => [Leave(id, how)]
  }

  /** A cache operation reports success; other operations cannot fail. */
  ghost predicate Succeeds(g: System, op: SystemOp)
    requires CachesOk(g)
  {
    match op
    case OnTarget(id, c) => CacheOpAllowed(g.target, id, c, g.bounds) && CacheStepOf(g.target, id, c, g.bounds).result.Ok?
    case OnDraft(id, c) =>
      g.draft.Some? && CacheOpAllowed(g.draft.value, id, c, g.bounds) && CacheStepOf(g.draft.value, id, c, g.bounds).result.Ok?
    case _ => true
  }

  /** Each operation is one the executor's discipline allows, and succeeds. */
  ghost predicate AllSucceed(cfg: Config, g: System, ops: seq<SystemOp>)
    decreases |ops|
  {
    ops == [] ||
    (&& cfg.pageTokens > 0 && CachesOk(g) && OpAllowed(cfg, g, ops[0]) && Succeeds(g, ops[0])
     && AllSucceed(cfg, Next(cfg, g, ops[0]), ops[1..]))
  }

  ghost function RunAll(cfg: Config, g: System, ops: seq<SystemOp>): System
    requires AllSucceed(cfg, g, ops)
    decreases |ops|
  {
    if ops == [] then g else RunAll(cfg, Next(cfg, g, ops[0]), ops[1..])
  }

  /** A request's progress right after its prefix was restored in the caches. */
  ghost function Begun(w: Serving, id: RequestId, restored: System): Progress
    requires id in w.wanted && id in restored.target.tables && (restored.draft.Some? ==> id in restored.draft.value.tables)
  {
    var n := w.wanted[id].inputCount;
    var t := CachedCount(restored.target.tables[id]);
    var d := if restored.draft.Some? then CachedCount(restored.draft.value.tables[id]) else 0;
    var remaining := if restored.draft.Some? then n - 1 - Min(t, d) else n - t;
    GenerationLengths.Progress.Progress(n, w.wanted[id].maxNew, n, Cached(t, 0, 0), Cached(d, 0, 0),
             if remaining > 0 then InPrefill(remaining) else InDecode(0), Idle)
  }

  ghost function After(cfg: Config, w: Serving, op: GenerationOp): Serving
    requires Enabled(cfg, w, op) && AllSucceed(cfg, w.g, Expand(w, op))
  {
    var g := RunAll(cfg, w.g, Expand(w, op));
    match op
    case Book(o) => Serving(g, w.progress, if o.Submit? then w.wanted[o.id := Wanted(|o.input|, o.maxNew)] else w.wanted)
    case AdmitAll => w.(g := g)
    case Begin(id, input) =>
      if id in g.target.tables && (g.draft.Some? ==> id in g.draft.value.tables)
      then Serving(g, w.progress[id := Begun(w, id, g)], w.wanted) else w.(g := g)
    case Advance(id, control) => Serving(g, w.progress[id := Do(w.progress[id], w.Drafted(), control)], w.wanted)
    case FillLayer(id, side, values) =>
      Serving(g, w.progress[id := LayerFilled(w.progress[id], side, CacheOn(w.g, side).shared.layerCount)], w.wanted)
    case PublishNow(_, _) => w.(g := g)
    case Depart(id, _) => Serving(g, w.progress - {id}, w.wanted)
  }

  // ---- The invariant ----------------------------------------------------------------------------

  ghost predicate ShowsProgress(c: Cache, r: RequestId, progress: map<RequestId, Progress>, side: Side) {
    if r in progress then progress[r].On(side).layers < c.shared.layerCount && Shows(c, r, progress[r].On(side), Floor(progress[r], side))
    else Shows(c, r, Cached(0, 0, 0), 0)
  }

  /** Every layer of every request holds what the request's progress says. */
  ghost predicate CacheShows(c: Cache, progress: map<RequestId, Progress>, side: Side) {
    forall r :: r in c.tables ==> ShowsProgress(c, r, progress, side)
  }

  ghost predicate Bounded(g: System, wanted: map<RequestId, Wanted>) {
    forall id :: id in g.bounds ==>
      && id in wanted && wanted[id].inputCount > 0 && wanted[id].maxNew > 0
      && g.bounds[id] == wanted[id].inputCount + wanted[id].maxNew - 1
  }

  ghost predicate ProgressOk(w: Serving, id: RequestId)
    requires id in w.progress
  {
    && id in w.g.target.tables && LengthsOk(w.progress[id], w.Drafted())
    && id in w.wanted && w.progress[id].inputCount == w.wanted[id].inputCount && w.progress[id].maxNew == w.wanted[id].maxNew
  }

  ghost predicate ServingOk(cfg: Config, w: Serving) {
    && SystemOk(cfg, w.g) && Bounded(w.g, w.wanted)
    && (forall id :: id in w.progress ==> ProgressOk(w, id))
    && CacheShows(w.g.target, w.progress, Target)
    && (w.Drafted() ==> CacheShows(w.g.draft.value, w.progress, Draft))
  }

  /** The caches hold state for exactly the active requests, unconditionally. */
  lemma CachesHoldActive(cfg: Config, w: Serving)
    requires ServingOk(cfg, w)
    ensures forall id :: id in w.g.target.tables <==> Holds(w.g.t.s.active, id)
    ensures w.Drafted() ==> forall id :: id in w.g.draft.value.tables <==> Holds(w.g.t.s.active, id)
  {
    SystemParts(cfg, w.g);
    ActiveTables(cfg, w.g.target, w.g.t.s.active, w.g.bounds);
    if w.Drafted() { ActiveTables(cfg, w.g.draft.value, w.g.t.s.active, w.g.bounds); }
  }

  lemma ActiveTables(cfg: Config, c: Cache, active: seq<Request>, bounds: map<RequestId, nat>)
    requires cfg.pageTokens > 0 && CacheInService(cfg, c, active, bounds)
    ensures forall id :: id in c.tables <==> Holds(active, id)
    ensures forall id :: id in c.tables ==> id in bounds
  {
    hide Inv, Holds;
  }

  // ---- One cache operation ----------------------------------------------------------------------

  /** What a successful operation on one side's cache leaves alone. */
  ghost predicate OneSide(g: System, g': System, side: Side, id: RequestId) {
    && g'.t == g.t && g'.bounds == g.bounds && g'.draft.Some? == g.draft.Some? && (side == Draft ==> g.draft.Some?)
    && OthersKept(CacheOn(g, side), CacheOn(g', side), id)
    && (side == Target ==> g'.draft == g.draft) && (side == Draft ==> g'.target == g.target)
  }

  lemma SideStep(cfg: Config, g: System, side: Side, id: RequestId, op: CacheOp)
    requires SystemOk(cfg, g) && (side == Draft ==> g.draft.Some?)
    requires CacheOk(CacheOn(g, side)) && CacheOpAllowed(CacheOn(g, side), id, op, g.bounds)
    requires var step := CacheStepOf(CacheOn(g, side), id, op, g.bounds);
             step.result.Ok? && OthersKept(CacheOn(g, side), Applied(CacheOn(g, side), id, step), id)
    ensures AllSucceed(cfg, g, [OnSide(side, id, op)])
    ensures var g' := RunAll(cfg, g, [OnSide(side, id, op)]);
            && SystemOk(cfg, g') && OneSide(g, g', side, id)
            && CacheOn(g', side) == Applied(CacheOn(g, side), id, CacheStepOf(CacheOn(g, side), id, op, g.bounds))
  {
    hide SystemOk, CacheOk, CacheOpAllowed, CacheStepOf, SchedulingOk, CacheInService, OthersKept, AllSucceed, RunAll, Next, OpAllowed, Succeeds,
      CachesOk;
    SystemParts(cfg, g);
    SideAllowed(cfg, g, side, id, op);
    OneOp(cfg, g, OnSide(side, id, op));
    SystemStepKeepsOk(cfg, g, OnSide(side, id, op));
    NextSide(cfg, g, side, id, op);
  }

  lemma SideAllowed(cfg: Config, g: System, side: Side, id: RequestId, op: CacheOp)
    requires CachesOk(g) && (side == Draft ==> g.draft.Some?)
    requires CacheOk(CacheOn(g, side)) && CacheOpAllowed(CacheOn(g, side), id, op, g.bounds)
    requires CacheStepOf(CacheOn(g, side), id, op, g.bounds).result.Ok?
    ensures OpAllowed(cfg, g, OnSide(side, id, op)) && Succeeds(g, OnSide(side, id, op))
  {
    hide CacheOk, CacheOpAllowed, CacheStepOf;
  }

  lemma OneOp(cfg: Config, g: System, op: SystemOp)
    requires cfg.pageTokens > 0 && CachesOk(g) && OpAllowed(cfg, g, op) && Succeeds(g, op)
    ensures AllSucceed(cfg, g, [op]) && RunAll(cfg, g, [op]) == Next(cfg, g, op)
  {
    hide Next, CachesOk, OpAllowed, Succeeds;
    assert [op][1..] == [];
  }

  lemma NextSide(cfg: Config, g: System, side: Side, id: RequestId, op: CacheOp)
    requires cfg.pageTokens > 0 && CachesOk(g) && (side == Draft ==> g.draft.Some?)
    requires CacheOpAllowed(CacheOn(g, side), id, op, g.bounds) && OpAllowed(cfg, g, OnSide(side, id, op))
    requires OthersKept(CacheOn(g, side), Applied(CacheOn(g, side), id, CacheStepOf(CacheOn(g, side), id, op, g.bounds)), id)
    ensures var g' := Next(cfg, g, OnSide(side, id, op));
            && OneSide(g, g', side, id)
            && CacheOn(g', side) == Applied(CacheOn(g, side), id, CacheStepOf(CacheOn(g, side), id, op, g.bounds))
  {
    hide CacheOk, CacheOpAllowed, CacheStepOf, OthersKept, Applied;
  }

  lemma InvOn(cfg: Config, g: System, side: Side)
    requires SystemOk(cfg, g) && (side == Draft ==> g.draft.Some?)
    ensures Inv(CacheOn(g, side)) && CachesOk(g)
  {
    SystemParts(cfg, g);
    InServiceWithin(cfg, CacheOn(g, side), g.t.s.active, g.bounds);
  }

  /** After one side changed for one request, its cache shows everybody's progress again if it shows that
      request's. */
  lemma ShowsAfter(c: Cache, c': Cache, r: RequestId, progress: map<RequestId, Progress>, progress': map<RequestId, Progress>, side: Side)
    requires CacheShows(c, progress, side) && OthersKept(c, c', r) && ShowsProgress(c', r, progress', side)
    requires forall x :: x != r ==> (x in progress <==> x in progress') && (x in progress ==> progress'[x] == progress[x])
    ensures CacheShows(c', progress', side)
  {
    hide Shows;
    forall x | x in c'.tables ensures ShowsProgress(c', x, progress', side) {
      if x != r {
        assert ShowsProgress(c, x, progress, side);
        if x in progress { OthersShow(c, c', r, x, progress[x].On(side), Floor(progress[x], side)); }
        else { OthersShow(c, c', r, x, Cached(0, 0, 0), 0); }
      }
    }
  }

  lemma RaiseFloor(c: Cache, r: RequestId, k: Cached, floor: nat, floor': nat)
    requires Shows(c, r, k, floor) && floor <= floor'
    ensures Shows(c, r, k, floor')
  {
  }

  /** The parts of the invariant that the lemmas about one request need. */
  lemma ServingFacts(cfg: Config, w: Serving, id: RequestId, side: Side)
    requires ServingOk(cfg, w) && Holds(w.g.t.s.active, id) && (side == Draft ==> w.Drafted())
    ensures cfg.pageTokens > 0 && CachesOk(w.g) && id in w.g.bounds && id in w.wanted
    ensures w.wanted[id].inputCount > 0 && w.wanted[id].maxNew > 0
    ensures w.g.bounds[id] == w.wanted[id].inputCount + w.wanted[id].maxNew - 1
    ensures SchedulingOk(cfg, w.g.t, w.g.bounds) && CacheInService(cfg, CacheOn(w.g, side), w.g.t.s.active, w.g.bounds)
    ensures Inv(CacheOn(w.g, side)) && WithinBounds(CacheOn(w.g, side), w.g.bounds)
    ensures id in CacheOn(w.g, side).tables && CacheShows(CacheOn(w.g, side), w.progress, side)
    ensures ShowsProgress(CacheOn(w.g, side), id, w.progress, side)
  {
    SystemParts(cfg, w.g);
    ActiveTables(cfg, CacheOn(w.g, side), w.g.t.s.active, w.g.bounds);
    InServiceWithin(cfg, CacheOn(w.g, side), w.g.t.s.active, w.g.bounds);
    hide SystemOk, SchedulingOk, CacheInService, ShowsProgress, Holds, Inv, WithinBounds;
  }

  lemma ActiveProgress(cfg: Config, w: Serving, id: RequestId)
    requires ServingOk(cfg, w) && id in w.progress
    ensures Holds(w.g.t.s.active, id) && ProgressOk(w, id)
  {
    hide LengthsOk, SystemOk;
    CachesHoldActive(cfg, w);
  }

  // ---- A layer of a forward pass ------------------------------------------------------------------

  /** The append that fills the next layer of the due pass. */
  ghost function FillOps(w: Serving, id: RequestId, side: Side, values: seq<KvEntry>): (ops: seq<SystemOp>)
    ensures id in w.progress ==> ops == Expand(w, FillLayer(id, side, values))
  {
    if id in w.progress then [OnSide(side, id, AppendC(w.progress[id].On(side).layers, values))] else []
  }

  lemma FillLayerSucceeds(cfg: Config, w: Serving, id: RequestId, side: Side, values: seq<KvEntry>)
    requires id in w.progress && (side == Draft ==> w.Drafted()) && Due(w.progress[id], side) > 0 && |values| == Due(w.progress[id], side)
    requires ServingOk(cfg, w)
    ensures AllSucceed(cfg, w.g, FillOps(w, id, side, values))
    ensures var g' := RunAll(cfg, w.g, FillOps(w, id, side, values));
            && SystemOk(cfg, g') && OneSide(w.g, g', side, id)
            && var e' := LayerFilled(w.progress[id], side, CacheOn(w.g, side).shared.layerCount);
               ShowsProgress(CacheOn(g', side), id, w.progress[id := e'], side)
  {
    hide SystemOk, CacheInService, SchedulingOk, LengthsOk, CacheShows, Bounded, Inv, WithinBounds, CachesOk, CacheOk, CacheStepOf, CacheOpAllowed,
      AllSucceed, RunAll;
    ActiveProgress(cfg, w, id);
    ServingFacts(cfg, w, id, side);
    var e, c := w.progress[id], CacheOn(w.g, side);
    var k, due := e.On(side), Due(e, side);
    PassFitsBound(e, w.Drafted(), side);
    SchedulingFacts(cfg, w.g.t, w.g.bounds);
    PassUnderWay(e, w.Drafted(), side, c, id);
    Layered(c, id);
    AppendAdvances(cfg, c, w.g.t.s.active, id, k.(adding := due), Floor(e, side), values, w.g.bounds);
    SideStep(cfg, w.g, side, id, AppendC(k.layers, values));
    var g' := RunAll(cfg, w.g, FillOps(w, id, side, values));
    InvOn(cfg, g', side);
    Layered(CacheOn(g', side), id);
    LayerShown(e, w.Drafted(), side, Applied(c, id, CacheStepOf(c, id, AppendC(k.layers, values), w.g.bounds)), id, c.shared.layerCount);
  }

  lemma Layered(c: Cache, id: RequestId)
    requires Inv(c) && id in c.tables
    ensures |c.tables[id].layers| == c.shared.layerCount
  {
    InvCacheOk(c);
    TableNotEmpty(c, id);
  }

  /** The due pass and the one the cache shows to be under way are the same. */
  lemma PassUnderWay(e: Progress, drafted: bool, side: Side, c: Cache, id: RequestId)
    requires LengthsOk(e, drafted) && (side == Draft ==> drafted) && Due(e, side) > 0 && Shows(c, id, e.On(side), Floor(e, side))
    ensures Shows(c, id, e.On(side).(adding := Due(e, side)), Floor(e, side))
  {
  }

  lemma LayerShown(e: Progress, drafted: bool, side: Side, c': Cache, id: RequestId, layerCount: nat)
    requires LengthsOk(e, drafted) && (side == Draft ==> drafted) && Due(e, side) > 0 && e.On(side).layers < layerCount
    requires id in c'.tables && |c'.tables[id].layers| == layerCount == c'.shared.layerCount
    requires Shows(c', id, e.On(side).(adding := Due(e, side), layers := e.On(side).layers + 1), Floor(e, side))
    ensures var e' := LayerFilled(e, side, layerCount);
            e'.On(side).layers < layerCount && Shows(c', id, e'.On(side), Floor(e', side))
  {
    LayerKeepsOk(e, drafted, side, layerCount);
  }

  // ---- The same operation on both models ----------------------------------------------------------

  /** The operation is allowed on this cache, succeeds, and affects nobody else. */
  ghost predicate Works(c: Cache, id: RequestId, op: CacheOp, bounds: map<RequestId, nat>) {
    && CacheOk(c) && CacheOpAllowed(c, id, op, bounds) && CacheStepOf(c, id, op, bounds).result.Ok?
    && OthersKept(c, Applied(c, id, CacheStepOf(c, id, op, bounds)), id)
  }

  ghost function Worked(c: Cache, id: RequestId, op: CacheOp, bounds: map<RequestId, nat>): Cache
    requires Works(c, id, op, bounds)
  {
    Applied(c, id, CacheStepOf(c, id, op, bounds))
  }

  ghost predicate WorksOnBoth(g: System, id: RequestId, op: CacheOp) {
    Works(g.target, id, op, g.bounds) && (g.draft.Some? ==> Works(g.draft.value, id, op, g.bounds))
  }

  lemma TwoOps(cfg: Config, g: System, a: SystemOp, b: SystemOp)
    requires AllSucceed(cfg, g, [a]) && AllSucceed(cfg, RunAll(cfg, g, [a]), [b])
    ensures AllSucceed(cfg, g, [a] + [b]) && RunAll(cfg, g, [a] + [b]) == RunAll(cfg, RunAll(cfg, g, [a]), [b])
  {
    hide Next, CachesOk, OpAllowed, Succeeds;
    assert [a][1..] == [] && ([a] + [b])[1..] == [b] && ([a] + [b])[0] == a;
  }

  lemma BothSucceed(cfg: Config, g: System, id: RequestId, op: CacheOp)
    requires SystemOk(cfg, g) && WorksOnBoth(g, id, op)
    ensures AllSucceed(cfg, g, OnBoth(g.draft.Some?, id, op))
    ensures var g' := RunAll(cfg, g, OnBoth(g.draft.Some?, id, op));
            && SystemOk(cfg, g') && g'.t == g.t && g'.bounds == g.bounds && g'.draft.Some? == g.draft.Some?
            && g'.target == Worked(g.target, id, op, g.bounds)
            && (g.draft.Some? ==> g'.draft.value == Worked(g.draft.value, id, op, g.bounds))
  {
    hide SystemOk, CacheOk, CacheOpAllowed, CacheStepOf, AllSucceed, RunAll, OthersKept, Applied;
    SideStep(cfg, g, Target, id, op);
    var first := RunAll(cfg, g, [OnTarget(id, op)]);
    assert CacheOn(first, Target) == first.target;
    if g.draft.Some? {
      assert first.draft == g.draft && CacheOn(first, Draft) == g.draft.value;
      SideStep(cfg, first, Draft, id, op);
      TwoOps(cfg, g, OnTarget(id, op), OnDraft(id, op));
    } else {
      assert OnBoth(false, id, op) == [OnTarget(id, op)];
    }
  }

  /** One request's new progress keeps the whole in order when both caches show it. */
  lemma RequestStepped(cfg: Config, w: Serving, w': Serving, id: RequestId)
    requires ServingOk(cfg, w) && SystemOk(cfg, w'.g) && w'.wanted == w.wanted && w'.g.bounds == w.g.bounds
    requires w'.g.draft.Some? == w.g.draft.Some? && id in w.g.target.tables
    requires OthersKept(w.g.target, w'.g.target, id) && (w.Drafted() ==> OthersKept(w.g.draft.value, w'.g.draft.value, id))
    requires id in w'.progress && ProgressOk(w', id)
    requires forall x :: x != id ==> (x in w.progress <==> x in w'.progress) && (x in w.progress ==> w'.progress[x] == w.progress[x])
    requires ShowsProgress(w'.g.target, id, w'.progress, Target)
    requires w.Drafted() ==> ShowsProgress(w'.g.draft.value, id, w'.progress, Draft)
    ensures ServingOk(cfg, w')
  {
    hide SystemOk, ShowsProgress, LengthsOk;
    ShowsAfter(w.g.target, w'.g.target, id, w.progress, w'.progress, Target);
    if w.Drafted() { ShowsAfter(w.g.draft.value, w'.g.draft.value, id, w.progress, w'.progress, Draft); }
    forall x | x in w'.progress ensures ProgressOk(w', x) {
      if x != id { assert ProgressOk(w, x); }
    }
  }

  lemma ServingSystem(cfg: Config, w: Serving)
    requires ServingOk(cfg, w)
    ensures SystemOk(cfg, w.g) && Bounded(w.g, w.wanted) && cfg.pageTokens > 0 && CachesOk(w.g)
  {
    SystemParts(cfg, w.g);
  }

  // ---- Rollback -----------------------------------------------------------------------------------

  lemma RollbackSucceeds(cfg: Config, w: Serving, id: RequestId, control: Control)
    requires ServingOk(cfg, w) && Enabled(cfg, w, Advance(id, control)) && control.CompleteSpeculation?
    ensures AllSucceed(cfg, w.g, Expand(w, Advance(id, control))) && ServingOk(cfg, After(cfg, w, Advance(id, control)))
  {
    hide ServingOk, SystemOk, LengthsOk, CacheShows, Bounded, Inv, WithinBounds, CachesOk, CacheOk, CacheStepOf, CacheOpAllowed, AllSucceed, RunAll,
      MayDo, Do, Retained, Works, ProgressOk;
    ActiveProgress(cfg, w, id);
    var e := w.progress[id];
    CommittedSome(e, w.Drafted(), control);
    var op := TruncateC(Retained(e, control.accepted, control.replaced));
    RollbackInRange(e, w.Drafted(), control.accepted, control.replaced, control.continues);
    RollbackWorks(cfg, w, id, control, Target);
    RollbackWorks(cfg, w, id, control, Draft);
    ServingSystem(cfg, w);
    BothSucceed(cfg, w.g, id, op);
    DoKeepsOk(e, w.Drafted(), control);
    var w' := After(cfg, w, Advance(id, control));
    assert ProgressOk(w', id) by { OwnProgress(cfg, w, w', id); }
    RequestStepped(cfg, w, w', id);
  }

  lemma CommittedSome(e: Progress, drafted: bool, control: Control)
    requires LengthsOk(e, drafted) && MayDo(e, drafted, control) && control.CompleteSpeculation?
    ensures e.committed > 0
  {
  }

  /** A request whose parameters did not change is in order when its lengths are. */
  lemma OwnProgress(cfg: Config, w: Serving, w': Serving, id: RequestId)
    requires ServingOk(cfg, w) && id in w.progress && id in w'.progress && w'.wanted == w.wanted && LengthsOk(w'.progress[id], w'.Drafted())
    requires w'.progress[id].inputCount == w.progress[id].inputCount && w'.progress[id].maxNew == w.progress[id].maxNew
    requires id in w'.g.target.tables
    ensures ProgressOk(w', id)
  {
    assert ProgressOk(w, id);
  }

  lemma RollbackWorks(cfg: Config, w: Serving, id: RequestId, control: Control, side: Side)
    requires w.Drafted() && id in w.progress && LengthsOk(w.progress[id], true) && MayDo(w.progress[id], true, control)
    requires control.CompleteSpeculation? && w.progress[id].committed > 0 && ServingOk(cfg, w)
    ensures var (c, op) := (CacheOn(w.g, side), TruncateC(Retained(w.progress[id], control.accepted, control.replaced)));
            && Works(c, id, op, w.g.bounds) && OthersKept(c, Worked(c, id, op, w.g.bounds), id)
            && ShowsProgress(Worked(c, id, op, w.g.bounds), id, w.progress[id := Do(w.progress[id], true, control)], side)
  {
    hide SystemOk, LengthsOk, CacheShows, Bounded, Inv, WithinBounds, CachesOk, CacheOk, CacheStepOf, CacheOpAllowed, CacheInService, SchedulingOk,
      Truncate, OthersKept;
    ActiveProgress(cfg, w, id);
    var e := w.progress[id];
    RollbackInRange(e, w.Drafted(), control.accepted, control.replaced, control.continues);
    ServingFacts(cfg, w, id, side);
    var c, target := CacheOn(w.g, side), Retained(e, control.accepted, control.replaced);
    TruncateAdvances(c, id, e.On(side), Floor(e, side), target, w.g.bounds);
    var c' := Applied(c, id, CacheStepOf(c, id, TruncateC(target), w.g.bounds));
    SizeKept(c, c', id);
    RaiseFloor(c', id, Cached(target, 0, 0), Floor(e, side), Floor(Do(e, true, control), side));
  }

  lemma SizeKept(c: Cache, c': Cache, id: RequestId)
    requires OthersKept(c, c', id)
    ensures c'.shared.layerCount == c.shared.layerCount && c'.tables.Keys == c.tables.Keys
  {
  }

  // ---- Publication --------------------------------------------------------------------------------

  /** At a step boundary publishing a request's committed tokens succeeds in both caches, whatever else is
      cached, shared or indexed, and leaves every complete block of what is cached indexed. */
  lemma PublicationSucceeds(cfg: Config, w: Serving, id: RequestId, tokens: seq<Token>)
    requires ServingOk(cfg, w) && Enabled(cfg, w, PublishNow(id, tokens))
    ensures AllSucceed(cfg, w.g, Expand(w, PublishNow(id, tokens))) && ServingOk(cfg, After(cfg, w, PublishNow(id, tokens)))
    ensures var w' := After(cfg, w, PublishNow(id, tokens));
            && PublishedThrough(w.g.target, w'.g.target, id, tokens) && w'.Drafted() == w.Drafted()
            && (w.Drafted() ==> PublishedThrough(w.g.draft.value, w'.g.draft.value, id, tokens))
  {
    hide PublishedThrough, ServingOk, SystemOk, LengthsOk, CacheShows, Bounded, Inv, WithinBounds, CachesOk, CacheOk, CacheStepOf,
      CacheOpAllowed, AllSucceed, RunAll,
      Works, ProgressOk;
    ActiveProgress(cfg, w, id);
    PublicationWorks(cfg, w, id, tokens, Target);
    if w.Drafted() { PublicationWorks(cfg, w, id, tokens, Draft); }
    ServingSystem(cfg, w);
    BothSucceed(cfg, w.g, id, PublishC(tokens));
    var w' := After(cfg, w, PublishNow(id, tokens));
    assert ProgressOk(w', id) by { SameProgress(cfg, w, w', id); }
    RequestStepped(cfg, w, w', id);
  }

  lemma SameProgress(cfg: Config, w: Serving, w': Serving, id: RequestId)
    requires ServingOk(cfg, w) && id in w.progress && w'.progress == w.progress && w'.wanted == w.wanted
    requires w'.g.draft.Some? == w.g.draft.Some? && id in w'.g.target.tables
    ensures ProgressOk(w', id)
  {
    assert ProgressOk(w, id);
  }

  lemma PublicationWorks(cfg: Config, w: Serving, id: RequestId, tokens: seq<Token>, side: Side)
    requires ServingOk(cfg, w) && Enabled(cfg, w, PublishNow(id, tokens)) && (side == Draft ==> w.Drafted())
    ensures var c := CacheOn(w.g, side);
            && Works(c, id, PublishC(tokens), w.g.bounds) && OthersKept(c, Worked(c, id, PublishC(tokens), w.g.bounds), id)
            && ShowsProgress(Worked(c, id, PublishC(tokens), w.g.bounds), id, w.progress, side)
            && PublishedThrough(c, Worked(c, id, PublishC(tokens), w.g.bounds), id, tokens)
  {
    hide SystemOk, LengthsOk, CacheShows, Bounded, Inv, WithinBounds, CachesOk, CacheOk, CacheStepOf, CacheOpAllowed, CacheInService, SchedulingOk,
      Publish, OthersKept, PublishedThrough;
    ActiveProgress(cfg, w, id);
    var e := w.progress[id];
    BoundaryFacts(e, w.Drafted(), side);
    ServingFacts(cfg, w, id, side);
    var c := CacheOn(w.g, side);
    PublishAdvances(c, id, e.On(side).count, Floor(e, side), tokens, w.g.bounds);
    SizeKept(c, Applied(c, id, CacheStepOf(c, id, PublishC(tokens), w.g.bounds)), id);
  }

  // ---- Start --------------------------------------------------------------------------------------

  /** As many tokens as the longest indexed run of complete blocks of the input but for its last token has. */
  ghost predicate RestoredLongest(c: Cache, input: seq<Token>, n: nat) {
    input != [] && c.shared.pool.pageTokens > 0 && n == Reusable(c, input[..|input| - 1])
  }

  /** Starting an admitted request succeeds: in each cache the longest indexed run of complete blocks of its
      input but for the last token is restored, and what was restored decides whether it begins in prefill or
      in decode. */
  lemma BeginSucceeds(cfg: Config, w: Serving, id: RequestId, input: seq<Token>)
    requires ServingOk(cfg, w) && Enabled(cfg, w, Begin(id, input))
    ensures AllSucceed(cfg, w.g, Expand(w, Begin(id, input)))
    ensures var w' := After(cfg, w, Begin(id, input));
            && ServingOk(cfg, w') && id in w'.progress && w'.g.t == w.g.t
            && RestoredLongest(w.g.target, input, w'.progress[id].target.count)
            && (w.Drafted() ==> RestoredLongest(w.g.draft.value, input, w'.progress[id].draft.count))
  {
    hide Reusable, ServingOk, SystemOk, LengthsOk, CacheShows, Bounded, Inv, WithinBounds, CachesOk, CacheOk, CacheStepOf, CacheOpAllowed,
      AllSucceed, RunAll,
      Works, ProgressOk, Begun;
    ServingFacts(cfg, w, id, Target);
    var op := RestoreC(input[..|input| - 1]);
    var t := RestoreWorks(cfg, w, id, input, Target);
    var d := 0;
    if w.Drafted() { d := RestoreWorks(cfg, w, id, input, Draft); }
    ServingSystem(cfg, w);
    BothSucceed(cfg, w.g, id, op);
    var w' := After(cfg, w, Begin(id, input));
    WorkedKeepsIds(w.g.target, id, op, w.g.bounds);
    if w.Drafted() { WorkedKeepsIds(w.g.draft.value, id, op, w.g.bounds); }
    BegunOk(w, id, w'.g, t, d);
    RequestStepped(cfg, w, w', id);
  }

  lemma WorkedKeepsIds(c: Cache, id: RequestId, op: CacheOp, bounds: map<RequestId, nat>)
    requires Works(c, id, op, bounds) && id in c.tables
    ensures id in Worked(c, id, op, bounds).tables && Worked(c, id, op, bounds).shared.layerCount == c.shared.layerCount
    ensures OthersKept(c, Worked(c, id, op, bounds), id)
  {
    hide CacheOk, CacheOpAllowed, CacheStepOf;
  }

  lemma RestoreWorks(cfg: Config, w: Serving, id: RequestId, input: seq<Token>, side: Side) returns (restored: nat)
    requires ServingOk(cfg, w) && Enabled(cfg, w, Begin(id, input)) && (side == Draft ==> w.Drafted())
    ensures RestoredLongest(CacheOn(w.g, side), input, restored)
    ensures var (c, op) := (CacheOn(w.g, side), RestoreC(input[..|input| - 1]));
            && Works(c, id, op, w.g.bounds) && id in c.tables
            && var c' := Worked(c, id, op, w.g.bounds);
               restored < |input| && Shows(c', id, Cached(restored, 0, 0), restored) && CachedCount(c'.tables[id]) == restored
               && c'.shared.layerCount > 0
  {
    hide SystemOk, LengthsOk, CacheShows, Bounded, Inv, WithinBounds, CachesOk, CacheOk, CacheStepOf, CacheOpAllowed, CacheInService, SchedulingOk,
      Restore, OthersKept, Reusable;
    ServingFacts(cfg, w, id, side);
    var c, prefix := CacheOn(w.g, side), input[..|input| - 1];
    RestoreAdvances(c, id, prefix, w.g.bounds);
    InvCacheOk(c);
    TableNotEmpty(c, id);
    var step := CacheStepOf(c, id, RestoreC(prefix), w.g.bounds);
    restored := step.result.value;
    var c' := Applied(c, id, step);
    SizeKept(c, c', id);
    FirstLayer(c', id, restored);
  }

  lemma FirstLayer(c: Cache, id: RequestId, n: nat)
    requires Shows(c, id, Cached(n, 0, 0), n) && |c.tables[id].layers| > 0
    ensures CachedCount(c.tables[id]) == n
  {
  }

  lemma BegunOk(w: Serving, id: RequestId, restored: System, t: nat, d: nat)
    requires id in w.wanted && w.wanted[id].inputCount > 0 && w.wanted[id].maxNew > 0
    requires restored.draft.Some? == w.g.draft.Some?
    requires id in restored.target.tables && CachedCount(restored.target.tables[id]) == t < w.wanted[id].inputCount
    requires Shows(restored.target, id, Cached(t, 0, 0), t) && restored.target.shared.layerCount > 0
    requires restored.draft.Some? ==>
               && id in restored.draft.value.tables && CachedCount(restored.draft.value.tables[id]) == d < w.wanted[id].inputCount
               && Shows(restored.draft.value, id, Cached(d, 0, 0), d) && restored.draft.value.shared.layerCount > 0
    ensures var w' := Serving(restored, w.progress[id := Begun(w, id, restored)], w.wanted);
            && ProgressOk(w', id) && ShowsProgress(restored.target, id, w'.progress, Target)
            && (restored.draft.Some? ==> ShowsProgress(restored.draft.value, id, w'.progress, Draft))
            && w'.progress[id].target.count == t && (restored.draft.Some? ==> w'.progress[id].draft.count == d)
  {
    hide Shows;
  }

  // ---- Steps without cache operations, admissions and departures ------------------------------------

  lemma ControlSucceeds(cfg: Config, w: Serving, id: RequestId, control: Control)
    requires ServingOk(cfg, w) && Enabled(cfg, w, Advance(id, control)) && !control.CompleteSpeculation?
    ensures AllSucceed(cfg, w.g, Expand(w, Advance(id, control))) && ServingOk(cfg, After(cfg, w, Advance(id, control)))
  {
    hide ServingOk, SystemOk, LengthsOk, CacheShows, Do, MayDo, ProgressOk, ShowsProgress, After, AllSucceed, Expand;
    ActiveProgress(cfg, w, id);
    ServingSystem(cfg, w);
    DoKeepsOk(w.progress[id], w.Drafted(), control);
    ControlAfter(cfg, w, id, control);
    var w' := Serving(w.g, w.progress[id := Do(w.progress[id], w.Drafted(), control)], w.wanted);
    InTarget(cfg, w, id);
    assert ProgressOk(w', id) by { OwnProgress(cfg, w, w', id); }
    ControlShows(cfg, w, id, control, Target);
    if w.Drafted() { ControlShows(cfg, w, id, control, Draft); }
    NobodyTouched(w.g, id);
    RequestStepped(cfg, w, w', id);
  }

  /** These steps are no operations on the caches. */
  lemma ControlAfter(cfg: Config, w: Serving, id: RequestId, control: Control)
    requires Enabled(cfg, w, Advance(id, control)) && !control.CompleteSpeculation?
    ensures AllSucceed(cfg, w.g, Expand(w, Advance(id, control)))
    ensures After(cfg, w, Advance(id, control)) == Serving(w.g, w.progress[id := Do(w.progress[id], w.Drafted(), control)], w.wanted)
  {
    hide Do, MayDo, LengthsOk;
  }

  lemma NobodyTouched(g: System, id: RequestId)
    ensures OthersKept(g.target, g.target, id) && (g.draft.Some? ==> OthersKept(g.draft.value, g.draft.value, id))
  {
  }

  lemma InTarget(cfg: Config, w: Serving, id: RequestId)
    requires ServingOk(cfg, w) && id in w.progress
    ensures id in w.g.target.tables
  {
    assert ProgressOk(w, id);
  }

  lemma ControlShows(cfg: Config, w: Serving, id: RequestId, control: Control, side: Side)
    requires ServingOk(cfg, w) && Enabled(cfg, w, Advance(id, control)) && !control.CompleteSpeculation? && (side == Draft ==> w.Drafted())
    ensures var e' := Do(w.progress[id], w.Drafted(), control);
            ShowsProgress(CacheOn(w.g, side), id, w.progress[id := e'], side)
  {
    ActiveProgress(cfg, w, id);
    ServingFacts(cfg, w, id, side);
    var e := w.progress[id];
    ControlKeepsCounts(e, w.Drafted(), control, side);
    hide Do, LengthsOk, MayDo, Floor, ServingOk;
    var e' := Do(e, w.Drafted(), control);
    RaiseFloor(CacheOn(w.g, side), id, e.On(side), Floor(e, side), Floor(e', side));
  }

  /** Preparing and completing a step touches no cache, and the floor never goes down. */
  lemma ControlKeepsCounts(e: Progress, drafted: bool, control: Control, side: Side)
    requires LengthsOk(e, drafted) && MayDo(e, drafted, control) && !control.CompleteSpeculation? && (side == Draft ==> drafted)
    ensures Do(e, drafted, control).On(side) == e.On(side) && Floor(Do(e, drafted, control), side) >= Floor(e, side)
  {
  }

  lemma BookSucceeds(cfg: Config, w: Serving, op: SystemOp)
    requires ServingOk(cfg, w) && Enabled(cfg, w, Book(op))
    ensures AllSucceed(cfg, w.g, Expand(w, Book(op))) && ServingOk(cfg, After(cfg, w, Book(op)))
  {
    hide ServingOk, SystemOk, CachesOk, CacheShows, SchedulingOk, Bounded, OpAllowed, AllSucceed, RunAll, Next;
    ServingSystem(cfg, w);
    OneOp(cfg, w.g, op);
    SystemStepKeepsOk(cfg, w.g, op);
    BookKeeps(cfg, w, op);
    BookedOk(cfg, w, After(cfg, w, Book(op)));
  }

  lemma BookKeeps(cfg: Config, w: Serving, op: SystemOp)
    requires cfg.pageTokens > 0 && CachesOk(w.g) && (op.Submit? || op.Progress? || op.ReleaseFlight?) && OpAllowed(cfg, w.g, op)
    requires Bounded(w.g, w.wanted)
    ensures var g' := Next(cfg, w.g, op);
            && g'.target == w.g.target && g'.draft == w.g.draft
            && Bounded(g', if op.Submit? then w.wanted[op.id := Wanted(|op.input|, op.maxNew)] else w.wanted)
            && (!op.Submit? ==> g'.bounds == w.g.bounds)
            && (op.Submit? ==> !InPlay(w.g.t, op.id))
  {
  }

  /** The scheduler's own operations change no cache, and a new submission is not in progress. */
  lemma BookedOk(cfg: Config, w: Serving, w': Serving)
    requires ServingOk(cfg, w) && SystemOk(cfg, w'.g) && Bounded(w'.g, w'.wanted)
    requires w'.g.target == w.g.target && w'.g.draft == w.g.draft && w'.progress == w.progress
    requires forall id :: id in w.wanted && Holds(w.g.t.s.active, id) ==> id in w'.wanted && w'.wanted[id] == w.wanted[id]
    ensures ServingOk(cfg, w')
  {
    hide SystemOk, LengthsOk, CacheShows, Bounded;
    forall id | id in w'.progress ensures ProgressOk(w', id) { ActiveProgress(cfg, w, id); }
  }

  lemma FilledOk(cfg: Config, w: Serving, id: RequestId, side: Side, values: seq<KvEntry>)
    requires ServingOk(cfg, w) && Enabled(cfg, w, FillLayer(id, side, values))
    ensures AllSucceed(cfg, w.g, Expand(w, FillLayer(id, side, values))) && ServingOk(cfg, After(cfg, w, FillLayer(id, side, values)))
  {
    hide ServingOk, SystemOk, CacheShows, ShowsProgress, OneSide, ProgressOk, LayerFilled, AllSucceed, RunAll, Expand, Due, FillOps;
    FillLayerSucceeds(cfg, w, id, side, values);
    var w' := After(cfg, w, FillLayer(id, side, values));
    FilledProgress(cfg, w, w', id, side, values);
    OneSideStepped(cfg, w, w', id, side);
  }

  lemma FilledProgress(cfg: Config, w: Serving, w': Serving, id: RequestId, side: Side, values: seq<KvEntry>)
    requires ServingOk(cfg, w) && Enabled(cfg, w, FillLayer(id, side, values)) && OneSide(w.g, w'.g, side, id) && w'.wanted == w.wanted
    requires w'.progress == w.progress[id := LayerFilled(w.progress[id], side, CacheOn(w.g, side).shared.layerCount)]
    ensures ProgressOk(w', id)
    ensures var other := if side == Target then Draft else Target;
            other == Draft ==> w.Drafted() ==> ShowsProgress(CacheOn(w.g, other), id, w'.progress, other)
    ensures side == Draft ==> ShowsProgress(CacheOn(w.g, Target), id, w'.progress, Target)
  {
    hide ServingOk, LengthsOk, CacheShows, ProgressOk, Shows, Floor, Due, LayerFilled, CacheInService, SchedulingOk, Inv, WithinBounds;
    ActiveProgress(cfg, w, id);
    InTarget(cfg, w, id);
    ServingFacts(cfg, w, id, side);
    var e, layers := w.progress[id], CacheOn(w.g, side).shared.layerCount;
    LengthsIn(w, id);
    LayerKeepsOk(e, w.Drafted(), side, layers);
    LayerFilledFacts(e, side, layers);
    assert ProgressOk(w', id) by { OwnProgress(cfg, w, w', id); }
    var other := if side == Target then Draft else Target;
    if other == Target || w.Drafted() { OtherSideShows(cfg, w, id, side, other, layers); }
  }

  lemma LengthsIn(w: Serving, id: RequestId)
    requires id in w.progress && ProgressOk(w, id)
    ensures LengthsOk(w.progress[id], w.Drafted())
  {
  }

  /** The same when only one side's cache changed. */
  lemma OneSideStepped(cfg: Config, w: Serving, w': Serving, id: RequestId, side: Side)
    requires ServingOk(cfg, w) && SystemOk(cfg, w'.g) && w'.wanted == w.wanted && OneSide(w.g, w'.g, side, id)
    requires id in w.progress && id in w'.progress && ProgressOk(w', id)
    requires forall x :: x != id ==> (x in w.progress <==> x in w'.progress) && (x in w.progress ==> w'.progress[x] == w.progress[x])
    requires ShowsProgress(CacheOn(w'.g, side), id, w'.progress, side)
    requires side == Target ==> w.Drafted() ==> ShowsProgress(CacheOn(w.g, Draft), id, w'.progress, Draft)
    requires side == Draft ==> ShowsProgress(CacheOn(w.g, Target), id, w'.progress, Target)
    ensures ServingOk(cfg, w')
  {
    hide ServingOk, SystemOk, ShowsProgress, ProgressOk;
    InTarget(cfg, w, id);
    RequestStepped(cfg, w, w', id);
  }

  lemma LayerFilledFacts(e: Progress, side: Side, layerCount: nat)
    ensures var e' := LayerFilled(e, side, layerCount);
            && e'.inputCount == e.inputCount && e'.maxNew == e.maxNew
            && forall other: Side :: other != side ==> e'.On(other) == e.On(other) && Floor(e', other) == Floor(e, other)
  {
  }

  lemma OtherSideShows(cfg: Config, w: Serving, id: RequestId, side: Side, other: Side, layerCount: nat)
    requires ServingOk(cfg, w) && id in w.progress && other != side && (other == Draft ==> w.Drafted())
    ensures ShowsProgress(CacheOn(w.g, other), id, w.progress[id := LayerFilled(w.progress[id], side, layerCount)], other)
  {
    hide ServingOk, LayerFilled, Shows, Floor, Due;
    ActiveProgress(cfg, w, id);
    ServingFacts(cfg, w, id, other);
    LayerFilledFacts(w.progress[id], side, layerCount);
  }

  lemma AdmitAllSucceeds(cfg: Config, w: Serving)
    requires ServingOk(cfg, w)
    ensures AllSucceed(cfg, w.g, Expand(w, AdmitAll)) && ServingOk(cfg, After(cfg, w, AdmitAll))
  {
    hide ServingOk, SystemOk, CachesOk, CacheShows, SchedulingOk, Bounded, AllSucceed, RunAll, StartAll, Admit, IdsDistinct, LengthsOk,
      CacheInService;
    ServingSystem(cfg, w);
    SystemParts(cfg, w.g);
    OneOp(cfg, w.g, AdmitAndStart);
    SystemStepKeepsOk(cfg, w.g, AdmitAndStart);
    var more := AdmitScheduling(cfg, w.g.t, w.g.bounds);
    NewIds(w.g.t.s.active, more);
    var ids := Ids(more);
    CachesHoldActive(cfg, w);
    NobodyNew(cfg, w, ids);
    AdmitShows(w.g.target, ids, w.progress, Target);
    if w.Drafted() { AdmitShows(w.g.draft.value, ids, w.progress, Draft); }
    AdmittedOk(cfg, w, After(cfg, w, AdmitAll));
  }

  /** Admitted requests are new to the caches and have made no progress. */
  lemma NobodyNew(cfg: Config, w: Serving, ids: seq<RequestId>)
    requires ServingOk(cfg, w) && forall i :: 0 <= i < |ids| ==> !Holds(w.g.t.s.active, ids[i])
    ensures forall i :: 0 <= i < |ids| ==> ids[i] !in w.progress && ids[i] !in w.g.target.tables
    ensures w.Drafted() ==> forall i :: 0 <= i < |ids| ==> ids[i] !in w.g.draft.value.tables
    ensures CacheShows(w.g.target, w.progress, Target) && (w.Drafted() ==> CacheShows(w.g.draft.value, w.progress, Draft))
  {
    hide SystemOk, LengthsOk, CacheShows;
    CachesHoldActive(cfg, w);
    forall i | 0 <= i < |ids| ensures ids[i] !in w.progress { if ids[i] in w.progress { ActiveProgress(cfg, w, ids[i]); } }
  }

  lemma NewIds(active: seq<Request>, more: seq<Request>)
    requires IdsDistinct(active + more)
    ensures Distinct(Ids(more)) && forall i :: 0 <= i < |more| ==> !Holds(active, Ids(more)[i])
  {
    var all := active + more;
    forall i, j | 0 <= i < j < |more| ensures more[i].id != more[j].id {
      assert all[|active| + i] == more[i] && all[|active| + j] == more[j];
    }
    forall i | 0 <= i < |more| ensures !Holds(active, more[i].id) {
      forall a | 0 <= a < |active| ensures active[a].id != more[i].id { assert all[a] == active[a] && all[|active| + i] == more[i]; }
    }
  }

  lemma AdmitShows(c: Cache, ids: seq<RequestId>, progress: map<RequestId, Progress>, side: Side)
    requires CacheShows(c, progress, side) && Distinct(ids)
    requires forall i :: 0 <= i < |ids| ==> ids[i] !in c.tables && ids[i] !in progress
    ensures CacheShows(StartAll(c, ids), progress, side) && StartAll(c, ids).tables.Keys >= c.tables.Keys
  {
    hide StartAll;
    StartAllShows(c, ids);
    var c' := StartAll(c, ids);
    forall x | x in c'.tables ensures ShowsProgress(c', x, progress, side) {
      if x in c.tables { assert ShowsProgress(c, x, progress, side); } else { assert x in ids; }
    }
  }

  lemma AdmittedOk(cfg: Config, w: Serving, w': Serving)
    requires ServingOk(cfg, w) && SystemOk(cfg, w'.g) && w'.progress == w.progress && w'.wanted == w.wanted && w'.g.bounds == w.g.bounds
    requires w'.g.draft.Some? == w.g.draft.Some? && w'.g.target.tables.Keys >= w.g.target.tables.Keys
    requires CacheShows(w'.g.target, w.progress, Target) && (w.Drafted() ==> CacheShows(w'.g.draft.value, w.progress, Draft))
    ensures ServingOk(cfg, w')
  {
    hide SystemOk, LengthsOk, CacheShows;
    forall id | id in w'.progress ensures ProgressOk(w', id) { assert ProgressOk(w, id); }
  }

  lemma DepartSucceeds(cfg: Config, w: Serving, id: RequestId, how: Termination)
    requires ServingOk(cfg, w) && Enabled(cfg, w, Depart(id, how))
    ensures AllSucceed(cfg, w.g, Expand(w, Depart(id, how))) && ServingOk(cfg, After(cfg, w, Depart(id, how)))
    ensures id !in After(cfg, w, Depart(id, how)).g.target.tables
  {
    hide ServingOk, SystemOk, CachesOk, CacheShows, SchedulingOk, Bounded, AllSucceed, RunAll, LengthsOk, CacheInService, Terminate, RemoveActive,
      CacheRelease.Removed, Inv;
    ServingSystem(cfg, w);
    OneOp(cfg, w.g, Leave(id, how));
    SystemStepKeepsOk(cfg, w.g, Leave(id, how));
    GoneShows(cfg, w, id, Target);
    if w.Drafted() { GoneShows(cfg, w, id, Draft); }
    DepartedOk(cfg, w, After(cfg, w, Depart(id, how)), id);
  }

  lemma GoneShows(cfg: Config, w: Serving, id: RequestId, side: Side)
    requires ServingOk(cfg, w) && Holds(w.g.t.s.active, id) && (side == Draft ==> w.Drafted())
    ensures var c' := Gone(CacheOn(w.g, side), id);
            CacheShows(c', w.progress - {id}, side) && c'.tables.Keys == CacheOn(w.g, side).tables.Keys - {id}
  {
    hide ServingOk, SystemOk, SchedulingOk, CacheInService, Inv, WithinBounds, Shows;
    ServingFacts(cfg, w, id, side);
    var c := CacheOn(w.g, side);
    RemovedShows(c, id);
    var c' := Gone(c, id);
    forall x | x in c'.tables ensures ShowsProgress(c', x, w.progress - {id}, side) {
      assert ShowsProgress(c, x, w.progress, side);
      ShowsSameTable(c, c', x, w.progress, w.progress - {id}, side);
    }
  }

  lemma ShowsSameTable(c: Cache, c': Cache, x: RequestId, progress: map<RequestId, Progress>, progress': map<RequestId, Progress>, side: Side)
    requires ShowsProgress(c, x, progress, side) && SameSize(c, c') && x in c'.tables && x in c.tables && c'.tables[x] == c.tables[x]
    requires (x in progress <==> x in progress') && (x in progress ==> progress'[x] == progress[x])
    ensures ShowsProgress(c', x, progress', side)
  {
  }

  lemma DepartedOk(cfg: Config, w: Serving, w': Serving, id: RequestId)
    requires ServingOk(cfg, w) && SystemOk(cfg, w'.g) && w'.progress == w.progress - {id} && w'.wanted == w.wanted && w'.g.bounds == w.g.bounds
    requires w'.g.draft.Some? == w.g.draft.Some? && w'.g.target.tables.Keys == w.g.target.tables.Keys - {id}
    requires CacheShows(w'.g.target, w'.progress, Target) && (w.Drafted() ==> CacheShows(w'.g.draft.value, w'.progress, Draft))
    ensures ServingOk(cfg, w')
  {
    hide SystemOk, LengthsOk, CacheShows;
    forall x | x in w'.progress ensures ProgressOk(w', x) { assert ProgressOk(w, x); }
  }

  // ---- Whole runs ---------------------------------------------------------------------------------

  /** Every operation of the worker and the generation loop is made up of cache operations the caches allow
      and perform, and keeps caches, progress and scheduler in agreement. */
  lemma StepKeepsServing(cfg: Config, w: Serving, op: GenerationOp)
    requires ServingOk(cfg, w) && Enabled(cfg, w, op)
    ensures AllSucceed(cfg, w.g, Expand(w, op)) && ServingOk(cfg, After(cfg, w, op))
  {
    hide ServingOk, Enabled, Expand, AllSucceed, After;
    match op
    case Book(o) => BookSucceeds(cfg, w, o);
    case AdmitAll => AdmitAllSucceeds(cfg, w);
    case Begin(id, input) => BeginSucceeds(cfg, w, id, input);
    case Advance(id, control) =>
      if control.CompleteSpeculation? { RollbackSucceeds(cfg, w, id, control); } else { ControlSucceeds(cfg, w, id, control); }
    case FillLayer(id, side, values) => FilledOk(cfg, w, id, side, values);
    case PublishNow(id, tokens) => PublicationSucceeds(cfg, w, id, tokens);
    case Depart(id, how) => DepartSucceeds(cfg, w, id, how);
  }

  ghost predicate IsGenerationRun(cfg: Config, states: seq<Serving>, ops: seq<GenerationOp>) {
    |states| == |ops| + 1 && forall i :: 0 <= i < |ops| ==> GenerationStep(cfg, states, ops, i)
  }

  ghost predicate GenerationStep(cfg: Config, states: seq<Serving>, ops: seq<GenerationOp>, i: nat)
    requires |states| == |ops| + 1 && i < |ops|
  {
    && Enabled(cfg, states[i], ops[i])
    && (AllSucceed(cfg, states[i].g, Expand(states[i], ops[i])) ==> states[i + 1] == After(cfg, states[i], ops[i]))
  }

  /** No preemption, from the generation steps up: in every run of submissions, admissions, prefill chunks,
      single decodes, proposals, verifications, rollbacks, publications and departures, interleaved layer
      by layer, no cache operation of any step fails: every append finds its pages, every rollback stays
      above what is published, every publication finds its blocks. */
  lemma {:induction false} GenerationNeverFails(cfg: Config, states: seq<Serving>, ops: seq<GenerationOp>, n: nat)
    requires IsGenerationRun(cfg, states, ops) && ServingOk(cfg, states[0]) && n <= |ops|
    ensures ServingOk(cfg, states[n])
    ensures n < |ops| ==> AllSucceed(cfg, states[n].g, Expand(states[n], ops[n]))
    decreases n
  {
    hide ServingOk, Enabled, Expand, AllSucceed, After;
    if n > 0 {
      GenerationNeverFails(cfg, states, ops, n - 1);
      assert GenerationStep(cfg, states, ops, n - 1);
      StepKeepsServing(cfg, states[n - 1], ops[n - 1]);
    }
    if n < |ops| {
      assert GenerationStep(cfg, states, ops, n);
      StepKeepsServing(cfg, states[n], ops[n]);
    }
  }

  /** A system that starts in order without requests serves in order. */
  lemma FreshServing(cfg: Config, g: System)
    requires SystemOk(cfg, g) && g.bounds == map[] && g.t.s.active == []
    ensures ServingOk(cfg, Serving(g, map[], map[]))
  {
    SystemParts(cfg, g);
    ActiveTables(cfg, g.target, g.t.s.active, g.bounds);
    if g.draft.Some? { ActiveTables(cfg, g.draft.value, g.t.s.active, g.bounds); }
    hide SystemOk, SchedulingOk, CacheInService;
  }
}
