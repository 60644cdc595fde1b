/** One model's cache while it serves the scheduler's active requests: every operation of the executor
    keeps it in service, and appends within a request's bound succeed. */
module CacheService {
  import opened Common
  import opened Arithmetic
  import opened CacheErrors
  import opened PagePool
  import opened PrefixTrie
  import opened PagedCacheSpec
  import opened CacheInvariant
  import opened CacheAppend
  import opened CacheRelease
  import opened CacheRestore
  import opened CachePublish
  import opened PrefixCacheFlight
  import opened SchedulerSpec
  import opened SchedulerRuns
  import opened NoPreemption

  ghost predicate ReservationsMatch(cfg: Config, s: seq<Request>, bounds: map<RequestId, nat>)
    requires cfg.pageTokens > 0
  {
    forall i :: 0 <= i < |s| ==> s[i].id in bounds && s[i].maxPages == CeilDiv(bounds[s[i].id], cfg.pageTokens)
  }

  ghost predicate WithinBounds(c: Cache, bounds: map<RequestId, nat>) {
    forall r :: r in c.tables ==>
      r in bounds && forall l :: 0 <= l < |c.tables[r].layers| ==> c.tables[r].layers[l].count <= bounds[r]
  }

  /** A model's cache is in order, holds exactly the active requests, and is large enough for the
      scheduler's geometry. */
  ghost predicate CacheInService(cfg: Config, c: Cache, active: seq<Request>, bounds: map<RequestId, nat>)
    requires cfg.pageTokens > 0
  {
    && Inv(c) && WithinBounds(c, bounds)
    && (forall r :: r in c.tables <==> Holds(active, r))
    && c.shared.pool.pageTokens == cfg.pageTokens
    && c.shared.layerCount * cfg.PageCapacity() <= |c.shared.pool.states|
  }

  // ---- One cache ------------------------------------------------------------------------------

  datatype CacheOp =
    | RestoreC(tokens: seq<Token>)
    | AppendC(layer: nat, values: seq<KvEntry>)
    | TruncateC(target: nat)
    | PublishC(tokens: seq<Token>)

  /** The executor's discipline for request r: restore a prefix within its bound, append where a layer
      ends and within its bound, truncate no lower than its cursor, publish between model steps. */
  ghost predicate CacheOpAllowed(c: Cache, r: RequestId, op: CacheOp, bounds: map<RequestId, nat>) {
    && r in c.tables && r in bounds
    && match op
       case RestoreC(tokens) => |tokens| <= bounds[r]
       case AppendC(l, values) =>
         l < |c.tables[r].layers| && values != [] && c.tables[r].layers[l].count + |values| <= bounds[r]
       case TruncateC(target) => AtOrAboveCursor(c, r, target)
       case PublishC(_) => Uniform(c.tables[r])
  }

  ghost function CacheStepOf(c: Cache, r: RequestId, op: CacheOp, bounds: map<RequestId, nat>): Step
    requires CacheOk(c) && CacheOpAllowed(c, r, op, bounds)
  {
    match op
    case RestoreC(tokens) => Restore(c.shared, c.tables[r], tokens)
    case AppendC(l, values) => Append(c.shared, c.tables[r], l, c.tables[r].layers[l].count, values)
    case TruncateC(target) => Truncate(c.shared, c.tables[r], target)
    case PublishC(tokens) => Publish(c.shared, c.tables[r], tokens)
  }

  ghost predicate SameSize(c: Cache, c': Cache) {
    && c'.shared.layerCount == c.shared.layerCount && c'.shared.pool.pageTokens == c.shared.pool.pageTokens
    && |c'.shared.pool.states| == |c.shared.pool.states|
  }

  ghost predicate CountsWithin(t: Table, bound: nat) {
    forall l :: 0 <= l < |t.layers| ==> t.layers[l].count <= bound
  }

  lemma InvCacheOk(c: Cache)
    requires Inv(c)
    ensures CacheOk(c)
  {
  }

  lemma RestoreWithin(c: Cache, r: RequestId, tokens: seq<Token>, bounds: map<RequestId, nat>)
    requires Inv(c) && WithinBounds(c, bounds) && r in c.tables && r in bounds && |tokens| <= bounds[r]
    ensures CacheOk(c)
    ensures var step := Restore(c.shared, c.tables[r], tokens);
            Inv(Applied(c, r, step)) && SameSize(c, Applied(c, r, step)) && CountsWithin(step.table, bounds[r])
  {
    InvCacheOk(c);
    hide CacheOk, LedgerOk, Restore;
    var ledger: Ledger :| Consistent(c, ledger);
    var _ := RestoreExact(c, ledger, r, tokens);
    RestoreSizes(c, ledger, r, tokens);
    var step := Restore(c.shared, c.tables[r], tokens);
    if c.shared.enabled && !IsPopulated(c.tables[r]) {
      var m := LongestMatch(c.shared.trie, Blocks(tokens, c.shared.pool.pageTokens));
      MatchedTokens(c, tokens, m);
    } else {
      AppliedTable(c, r, step);
    }
  }

  lemma AppliedTable(c: Cache, r: RequestId, step: Step)
    requires r in c.tables && Applied(c, r, step) == c
    ensures step.table == c.tables[r]
  {
    assert c.tables[r := step.table][r] == step.table;
  }

  lemma MatchedTokens(c: Cache, tokens: seq<Token>, m: nat)
    requires c.shared.pool.pageTokens > 0 && m <= |Blocks(tokens, c.shared.pool.pageTokens)|
    ensures m * c.shared.pool.pageTokens <= |tokens|
  {
    var size := c.shared.pool.pageTokens;
    BlocksShape(tokens, size);
    DivMod(|tokens|, size);
    Scale(size, m, Div(|tokens|, size));
  }

  lemma RestoreSizes(c: Cache, ledger: Ledger, r: RequestId, tokens: seq<Token>)
    requires Consistent(c, ledger) && r in c.tables
    ensures CacheOk(c) && c.shared.pool.pageTokens > 0
    ensures SameSize(c, Applied(c, r, Restore(c.shared, c.tables[r], tokens)))
    ensures |Restore(c.shared, c.tables[r], tokens).table.layers| == |c.tables[r].layers|
  {
    hide LedgerOk, RetainAll, PathRows, MatchedPath, Touch, PrefixClosed, StampsOk, FreeListExact, TableOk;
    if c.shared.enabled && !IsPopulated(c.tables[r]) { RestoreComputes(c, ledger, r, tokens); }
    assert TableOk(c.shared, c.tables[r]);
    TableLayers(c, r);
  }

  lemma TableLayers(c: Cache, r: RequestId)
    requires CacheOk(c) && r in c.tables
    ensures |c.tables[r].layers| == c.shared.layerCount
  {
  }

  /** An append within the request's bound succeeds, and nobody leaves its bound. */
  lemma AppendWithin(cfg: Config, c: Cache, active: seq<Request>, r: RequestId, l: nat, values: seq<KvEntry>, bounds: map<RequestId, nat>)
    requires cfg.pageTokens > 0 && CacheInService(cfg, c, active, bounds) && ActiveDistinct(active)
    requires ReservationsMatch(cfg, active, bounds) && SumPages(active) <= cfg.PageCapacity()
    requires CacheOpAllowed(c, r, AppendC(l, values), bounds)
    ensures CacheOk(c)
    ensures var step := Append(c.shared, c.tables[r], l, c.tables[r].layers[l].count, values);
            && step.result == Ok(c.tables[r].layers[l].count + |values|)
            && Inv(Applied(c, r, step)) && SameSize(c, Applied(c, r, step)) && CountsWithin(step.table, bounds[r])
  {
    InvCacheOk(c);
    hide CacheOk, LedgerOk, Append;
    var ledger: Ledger :| Consistent(c, ledger);
    assert Serves(c, active, bounds) by { InServiceServes(cfg, c, active, bounds); }
    AppendNeverRunsOut(c, ledger, active, bounds, cfg.PageCapacity(), r, l, values);
    LayerInService(c, r, l);
    var _ := AppendExact(c, ledger, r, l, c.tables[r].layers[l].count, values);
  }

  lemma LayerInService(c: Cache, r: RequestId, l: nat)
    requires CacheOk(c) && r in c.tables && l < |c.tables[r].layers|
    ensures l < c.shared.layerCount
  {
  }

  lemma InServiceServes(cfg: Config, c: Cache, active: seq<Request>, bounds: map<RequestId, nat>)
    requires cfg.pageTokens > 0 && CacheInService(cfg, c, active, bounds) && ActiveDistinct(active)
    requires ReservationsMatch(cfg, active, bounds)
    ensures Serves(c, active, bounds)
  {
    InvCacheOk(c);
    hide CacheOk;
    forall r | r in c.tables ensures Served(c, active, bounds, r) { assert Holds(active, r); }
  }

  lemma TruncateWithin(c: Cache, r: RequestId, target: nat, bounds: map<RequestId, nat>)
    requires Inv(c) && WithinBounds(c, bounds) && r in c.tables && r in bounds && AtOrAboveCursor(c, r, target)
    ensures CacheOk(c) && c.shared.pool.pageTokens > 0
    ensures var step := Truncate(c.shared, c.tables[r], target);
            Inv(Applied(c, r, step)) && SameSize(c, Applied(c, r, step)) && CountsWithin(step.table, bounds[r])
  {
    InvCacheOk(c);
    PageTokensPositive(c);
    hide CacheOk, LedgerOk, Truncate, AtOrAboveCursor, WithinAllLayers, SameSize;
    var ledger: Ledger :| Consistent(c, ledger);
    var _ := TruncateExact(c, ledger, r, target);
    TruncateSameSize(c, ledger, r, target);
    TruncateCounts(c.shared, c.tables[r], target, bounds[r]);
  }

  lemma TruncateSameSize(c: Cache, ledger: Ledger, r: RequestId, target: nat)
    requires Consistent(c, ledger) && r in c.tables && c.shared.pool.pageTokens > 0
    ensures SameSize(c, Applied(c, r, Truncate(c.shared, c.tables[r], target)))
  {
    hide CacheOk, LedgerOk, ReleaseAll, Div, Mod, CeilDiv;
    ReleaseTail(c, ledger, r, CeilDiv(target, c.shared.pool.pageTokens));
  }

  /** A cut never adds tokens to a layer. */
  lemma TruncateCounts(s: Shared, t: Table, target: nat, bound: nat)
    requires s.pool.pageTokens > 0 && CountsWithin(t, bound)
    ensures CountsWithin(Truncate(s, t, target).table, bound)
  {
    hide ReleaseAll, Div, Mod, CeilDiv, TailRows, Flatten;
  }

  lemma PublishWithin(c: Cache, r: RequestId, tokens: seq<Token>, bounds: map<RequestId, nat>)
    requires Inv(c) && WithinBounds(c, bounds) && r in c.tables && r in bounds && Uniform(c.tables[r])
    ensures CacheOk(c)
    ensures var step := Publish(c.shared, c.tables[r], tokens);
            Inv(Applied(c, r, step)) && SameSize(c, Applied(c, r, step)) && CountsWithin(step.table, bounds[r])
  {
    InvCacheOk(c);
    hide CacheOk, LedgerOk, Publish;
    var ledger: Ledger :| Consistent(c, ledger);
    var _ := PublishExact(c, ledger, r, tokens);
    PublishSizes(c, ledger, r, tokens);
  }

  lemma PublishSizes(c: Cache, ledger: Ledger, r: RequestId, tokens: seq<Token>)
    requires Consistent(c, ledger) && r in c.tables && Uniform(c.tables[r])
    ensures CacheOk(c)
    ensures SameSize(c, Applied(c, r, Publish(c.shared, c.tables[r], tokens)))
  {
    hide LedgerOk, Blocks, MatchFrom, PublishPages, PrefixClosed, StampsOk, FreeListExact, TableOk, CommitPublication;
    if c.shared.enabled && CachedCount(c.tables[r]) <= |tokens| {
      PublishComputes(c, ledger, r, tokens);
      var full := PublishedPath(c.shared, c.tables[r], tokens);
      CommitSizes(c, ledger, r, full, MatchFrom(c.shared.trie, full, |c.tables[r].path|));
    }
  }

  lemma CommitSizes(c: Cache, ledger: Ledger, r: RequestId, full: Path, m: nat)
    requires Publishing(c, ledger, r, full, m)
    ensures CacheOk(c) && Publishable(c.shared, c.tables[r], full, m)
    ensures SameSize(c, Applied(c, r, CommitPublication(c.shared, c.tables[r], full, m)))
  {
    PublishingBasics(c, ledger, r, full, m);
    hide Publishing, NewRows, CanonicalRows, ReplacedRows, PublishedTrie, PublishedTable, Flatten;
    PublishPagesSizes(c.shared.pool, Flatten(NewRows(c.shared, c.tables[r], full, m)),
                      Flatten(CanonicalRows(c.shared, c.tables[r], full, m)), Flatten(ReplacedRows(c.shared, c.tables[r], full, m)));
  }

  /** Every allowed cache operation keeps the cache in service, and appends succeed. */
  lemma CacheOpKeepsService(cfg: Config, c: Cache, active: seq<Request>, r: RequestId, op: CacheOp, bounds: map<RequestId, nat>)
    requires cfg.pageTokens > 0 && CacheInService(cfg, c, active, bounds) && ActiveDistinct(active)
    requires ReservationsMatch(cfg, active, bounds) && SumPages(active) <= cfg.PageCapacity()
    requires CacheOpAllowed(c, r, op, bounds)
    ensures CacheOk(c)
    ensures CacheInService(cfg, Applied(c, r, CacheStepOf(c, r, op, bounds)), active, bounds)
    ensures op.AppendC? ==> CacheStepOf(c, r, op, bounds).result.Ok?
  {
    hide CacheOk, Append, Restore, Truncate, Publish, AtOrAboveCursor, Uniform, ReservationsMatch, ActiveDistinct, CacheInService, Applied;
    match op
    case RestoreC(tokens) => RestoreKeepsService(cfg, c, active, r, tokens, bounds);
    case AppendC(l, values) => AppendKeepsService(cfg, c, active, r, l, values, bounds);
    case TruncateC(target) => TruncateKeepsService(cfg, c, active, r, target, bounds);
    case PublishC(tokens) => PublishKeepsService(cfg, c, active, r, tokens, bounds);
  }

  lemma RestoreKeepsService(cfg: Config, c: Cache, active: seq<Request>, r: RequestId, tokens: seq<Token>, bounds: map<RequestId, nat>)
    requires cfg.pageTokens > 0 && CacheInService(cfg, c, active, bounds) && r in c.tables && r in bounds && |tokens| <= bounds[r]
    ensures CacheOk(c) && CacheInService(cfg, Applied(c, r, Restore(c.shared, c.tables[r], tokens)), active, bounds)
  {
    hide CacheOk, Inv, Restore, SameSize, CountsWithin, CacheInService;
    InServiceWithin(cfg, c, active, bounds);
    RestoreWithin(c, r, tokens, bounds);
    OperationDefined(c, r);
    AppliedInService(cfg, c, active, r, Restore(c.shared, c.tables[r], tokens), bounds);
  }

  lemma AppendKeepsService(cfg: Config, c: Cache, active: seq<Request>, r: RequestId, l: nat, values: seq<KvEntry>, bounds: map<RequestId, nat>)
    requires cfg.pageTokens > 0 && CacheInService(cfg, c, active, bounds) && ActiveDistinct(active)
    requires ReservationsMatch(cfg, active, bounds) && SumPages(active) <= cfg.PageCapacity()
    requires CacheOpAllowed(c, r, AppendC(l, values), bounds)
    ensures CacheOk(c)
    ensures var step := Append(c.shared, c.tables[r], l, c.tables[r].layers[l].count, values);
            step.result.Ok? && CacheInService(cfg, Applied(c, r, step), active, bounds)
  {
    hide CacheOk, Inv, Append, SameSize, CountsWithin, CacheInService, ReservationsMatch, ActiveDistinct;
    InServiceWithin(cfg, c, active, bounds);
    AppendWithin(cfg, c, active, r, l, values, bounds);
    OperationDefined(c, r);
    AppliedInService(cfg, c, active, r, Append(c.shared, c.tables[r], l, c.tables[r].layers[l].count, values), bounds);
  }

  lemma TruncateKeepsService(cfg: Config, c: Cache, active: seq<Request>, r: RequestId, target: nat, bounds: map<RequestId, nat>)
    requires cfg.pageTokens > 0 && CacheInService(cfg, c, active, bounds) && r in c.tables && r in bounds && AtOrAboveCursor(c, r, target)
    ensures CacheOk(c) && c.shared.pool.pageTokens > 0
    ensures CacheInService(cfg, Applied(c, r, Truncate(c.shared, c.tables[r], target)), active, bounds)
  {
    hide CacheOk, Inv, Truncate, SameSize, CountsWithin, CacheInService, AtOrAboveCursor;
    InServiceWithin(cfg, c, active, bounds);
    TruncateWithin(c, r, target, bounds);
    AppliedInService(cfg, c, active, r, Truncate(c.shared, c.tables[r], target), bounds);
  }

  lemma PublishKeepsService(cfg: Config, c: Cache, active: seq<Request>, r: RequestId, tokens: seq<Token>, bounds: map<RequestId, nat>)
    requires cfg.pageTokens > 0 && CacheInService(cfg, c, active, bounds) && r in c.tables && r in bounds && Uniform(c.tables[r])
    ensures CacheOk(c) && CacheInService(cfg, Applied(c, r, Publish(c.shared, c.tables[r], tokens)), active, bounds)
  {
    hide CacheOk, Inv, Publish, SameSize, CountsWithin, CacheInService, Uniform;
    InServiceWithin(cfg, c, active, bounds);
    PublishWithin(c, r, tokens, bounds);
    OperationDefined(c, r);
    AppliedInService(cfg, c, active, r, Publish(c.shared, c.tables[r], tokens), bounds);
  }

  lemma OperationDefined(c: Cache, r: RequestId)
    requires CacheOk(c) && r in c.tables
    ensures SharedShaped(c.shared) && TableShaped(c.shared, c.tables[r])
  {
  }

  lemma InServiceWithin(cfg: Config, c: Cache, active: seq<Request>, bounds: map<RequestId, nat>)
    requires cfg.pageTokens > 0 && CacheInService(cfg, c, active, bounds)
    ensures Inv(c) && WithinBounds(c, bounds)
  {
  }

  lemma AppliedInService(cfg: Config, c: Cache, active: seq<Request>, r: RequestId, step: Step, bounds: map<RequestId, nat>)
    requires cfg.pageTokens > 0 && CacheInService(cfg, c, active, bounds) && r in c.tables && r in bounds
    requires Inv(Applied(c, r, step)) && SameSize(c, Applied(c, r, step)) && CountsWithin(step.table, bounds[r])
    ensures CacheInService(cfg, Applied(c, r, step), active, bounds)
  {
    hide Inv, Holds;
  }

  // ---- Starting and leaving -------------------------------------------------------------------

  /** Starts the admitted requests one after the other. */
  ghost function StartAll(c: Cache, ids: seq<RequestId>): Cache
    decreases |ids|
  {
    if ids == [] then c else StartAll(Started(c, ids[0]), ids[1..])
  }

  lemma StartedInService(cfg: Config, c: Cache, active: seq<Request>, r: Request, bounds: map<RequestId, nat>)
    requires cfg.pageTokens > 0 && CacheInService(cfg, c, active, bounds) && !Holds(active, r.id) && r.id in bounds
    requires |active| < MAX_READERS && ActiveDistinct(active)
    ensures CacheInService(cfg, Started(c, r.id), active + [r], bounds)
  {
    hide Inv, Holds;
    TablesNoMoreThanActive(c, active);
    StartedInv(c, r.id);
    StartedTables(c, r.id);
    hide Started;
    forall x ensures Holds(active + [r], x) <==> Holds(active, x) || x == r.id { HoldsOneMore(active, r, x); }
  }

  lemma StartedTables(c: Cache, r: RequestId)
    ensures var c' := Started(c, r);
            && c'.shared == c.shared && c'.tables.Keys == c.tables.Keys + {r}
            && (forall x :: x in c.tables && x != r ==> c'.tables[x] == c.tables[x])
            && forall l :: 0 <= l < |c'.tables[r].layers| ==> c'.tables[r].layers[l].count == 0
  {
  }

  lemma HoldsOneMore(active: seq<Request>, r: Request, x: RequestId)
    ensures Holds(active + [r], x) <==> Holds(active, x) || x == r.id
  {
    HoldsConcat(active, [r], x);
    assert [r][0].id == r.id;
  }

  lemma StartedInv(c: Cache, r: RequestId)
    requires Inv(c) && r !in c.tables && |c.tables| < MAX_READERS
    ensures Inv(Started(c, r))
  {
    hide CacheOk, LedgerOk;
    var ledger: Ledger :| Consistent(c, ledger);
    StartExact(c, ledger, r);
  }

  lemma TablesNoMoreThanActive(c: Cache, active: seq<Request>)
    requires forall r :: r in c.tables <==> Holds(active, r)
    ensures |c.tables| <= |active|
  {
    var ids := set i | 0 <= i < |active| :: active[i].id;
    assert c.tables.Keys == ids;
    IdSetSize(active);
    assert |c.tables| == |c.tables.Keys|;
  }

  lemma {:induction false} IdSetSize(active: seq<Request>)
    ensures |set i | 0 <= i < |active| :: active[i].id| <= |active|
    decreases |active|
  {
    if active != [] {
      var n := |active| - 1;
      IdSetSize(active[..n]);
      var before := set i | 0 <= i < |active[..n]| :: active[..n][i].id;
      assert (set i | 0 <= i < |active| :: active[i].id) == before + {active[n].id};
    }
  }

  lemma {:induction false} StartAllInService(cfg: Config, c: Cache, active: seq<Request>, more: seq<Request>, bounds: map<RequestId, nat>)
    requires cfg.pageTokens > 0 && CacheInService(cfg, c, active, bounds)
    requires |active| + |more| <= MAX_READERS && IdsDistinct(active + more)
    requires forall i :: 0 <= i < |more| ==> more[i].id in bounds
    ensures CacheInService(cfg, StartAll(c, Ids(more)), active + more, bounds)
    decreases |more|
  {
    hide CacheInService, Started;
    if more == [] {
      assert active + more == active && Ids(more) == [];
    } else {
      StartFacts(active, more);
      StartedInService(cfg, c, active, more[0], bounds);
      StartAllInService(cfg, Started(c, more[0].id), active + [more[0]], more[1..], bounds);
    }
  }

  lemma StartFacts(active: seq<Request>, more: seq<Request>)
    requires more != [] && IdsDistinct(active + more)
    ensures ActiveDistinct(active) && !Holds(active, more[0].id)
    ensures active + [more[0]] + more[1..] == active + more
    ensures Ids(more)[1..] == Ids(more[1..])
  {
    var all := active + more;
    forall i, j | 0 <= i < j < |active| ensures active[i].id != active[j].id { assert all[i] == active[i] && all[j] == active[j]; }
    forall i | 0 <= i < |active| ensures active[i].id != more[0].id { assert all[i] == active[i] && all[|active|] == more[0]; }
  }

  lemma RemovedInService(cfg: Config, c: Cache, active: seq<Request>, k: nat, bounds: map<RequestId, nat>)
    requires cfg.pageTokens > 0 && CacheInService(cfg, c, active, bounds) && IdsDistinct(active) && k < |active|
    ensures active[k].id in c.tables
    ensures CacheInService(cfg, CacheRelease.Removed(c, active[k].id), Drop(active, k), bounds)
  {
    hide Inv, Holds, Drop, Reset, SameSize, IdsDistinct;
    var id := active[k].id;
    HeldAt(active, k);
    RemovedInv(c, id);
    RemovedShape(c, id);
    hide CacheRelease.Removed;
    forall x ensures Holds(Drop(active, k), x) <==> Holds(active, x) && x != id { HoldsDropped(active, k, x); }
  }

  lemma HeldAt(active: seq<Request>, k: nat)
    requires k < |active|
    ensures Holds(active, active[k].id)
  {
  }

  lemma HoldsDropped(active: seq<Request>, k: nat, x: RequestId)
    requires IdsDistinct(active) && k < |active|
    ensures Holds(Drop(active, k), x) <==> Holds(active, x) && x != active[k].id
  {
    DropExact(active, k);
    if i :| 0 <= i < |Drop(active, k)| && Drop(active, k)[i].id == x { assert active[if i < k then i else i + 1].id == x; }
    if i :| 0 <= i < |active| && active[i].id == x && i != k { assert Drop(active, k)[if i < k then i else i - 1].id == x; }
  }

  lemma RemovedInv(c: Cache, r: RequestId)
    requires Inv(c) && r in c.tables
    ensures Inv(CacheRelease.Removed(c, r)) && SameSize(c, CacheRelease.Removed(c, r))
  {
    hide CacheOk, LedgerOk, Reset;
    var ledger: Ledger :| Consistent(c, ledger);
    var _ := CacheRelease.RemoveExact(c, ledger, r);
    RemovedSizes(c, ledger, r);
  }

  lemma RemovedShape(c: Cache, r: RequestId)
    requires r in c.tables && SameSize(c, CacheRelease.Removed(c, r))
    ensures var c' := CacheRelease.Removed(c, r);
            && c'.tables == c.tables - {r} && c'.shared.layerCount == c.shared.layerCount
            && c'.shared.pool.pageTokens == c.shared.pool.pageTokens && |c'.shared.pool.states| == |c.shared.pool.states|
  {
  }

  lemma RemovedSizes(c: Cache, ledger: Ledger, r: RequestId)
    requires Consistent(c, ledger) && r in c.tables
    ensures SameSize(c, CacheRelease.Removed(c, r))
  {
    ReleaseSizes(c.shared.pool, Flatten(TailRows(c.tables[r], 0)));
  }
}
