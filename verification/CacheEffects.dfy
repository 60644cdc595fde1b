/** What each operation of a model's cache does to the numbers a request's progress depends on: the token
    count of each layer and how far the request has published. */
module CacheEffects {
  import opened Common
  import opened Arithmetic
  import opened CacheErrors
  import opened PagePool
  import opened PrefixTrie
  import opened PagedCacheSpec
  import opened CacheInvariant
  import opened CacheAppend
  import opened CacheRelease
  import opened CacheRestore
  import opened CachePublish
  import opened SchedulerSpec
  import opened NoPreemption
  import opened CacheService
  import PrefixCacheFlight

  /** How far a request's cache is: `count` tokens in every layer, and while a forward pass of `adding`
      more tokens is under way, those as well in the first `layers` layers. */
  datatype Cached = Cached(count: nat, adding: nat, layers: nat)

  /** The cache shows the request at `k`, with nothing published beyond `floor` tokens. */
  ghost predicate Shows(c: Cache, r: RequestId, k: Cached, floor: nat) {
    && r in c.tables && k.layers <= |c.tables[r].layers|
    && |c.tables[r].path| * c.shared.pool.pageTokens <= floor
    && forall l :: 0 <= l < |c.tables[r].layers| ==> c.tables[r].layers[l].count == k.count + if l < k.layers then k.adding else 0
  }

  /** Nobody but request r is affected. */
  ghost predicate OthersKept(c: Cache, c': Cache, r: RequestId) {
    && SameSize(c, c') && c'.tables.Keys == c.tables.Keys
    && forall x :: x in c.tables && x != r ==> c'.tables[x] == c.tables[x]
  }

  lemma AppliedKeepsOthers(c: Cache, r: RequestId, step: Step)
    requires r in c.tables && SameSize(c, Applied(c, r, step))
    ensures OthersKept(c, Applied(c, r, step), r) && Applied(c, r, step).tables[r] == step.table
  {
  }

  lemma OthersShow(c: Cache, c': Cache, r: RequestId, x: RequestId, k: Cached, floor: nat)
    requires OthersKept(c, c', r) && x != r && Shows(c, x, k, floor)
    ensures Shows(c', x, k, floor)
  {
  }

  lemma PathWithinCount(c: Cache, r: RequestId, l: nat)
    requires CacheOk(c) && r in c.tables && l < |c.tables[r].layers|
    ensures |c.tables[r].path| * c.shared.pool.pageTokens <= c.tables[r].layers[l].count
  {
    hide CacheOk, Div, Mod;
    PathWithinLayer(c, r, l);
    var size, count := c.shared.pool.pageTokens, c.tables[r].layers[l].count;
    DivMod(count, size);
    Scale(size, |c.tables[r].path|, Div(count, size));
  }

  // ---- Append ---------------------------------------------------------------------------------

  /** One layer of a forward pass: the layer after those the pass has already filled gets the pass's
      entries, and the append succeeds. */
  lemma AppendAdvances(cfg: Config, c: Cache, active: seq<Request>, r: RequestId, k: Cached, floor: nat, values: seq<KvEntry>,
                       bounds: map<RequestId, nat>)
    requires cfg.pageTokens > 0 && CacheInService(cfg, c, active, bounds) && ActiveDistinct(active)
    requires ReservationsMatch(cfg, active, bounds) && SumPages(active) <= cfg.PageCapacity()
    requires Shows(c, r, k, floor) && r in bounds && k.layers < |c.tables[r].layers|
    requires values != [] && |values| == k.adding && k.count + k.adding <= bounds[r]
    ensures CacheOk(c) && CacheOpAllowed(c, r, AppendC(k.layers, values), bounds)
    ensures var step := CacheStepOf(c, r, AppendC(k.layers, values), bounds);
            && step.result.Ok? && OthersKept(c, Applied(c, r, step), r)
            && Shows(Applied(c, r, step), r, k.(layers := k.layers + 1), floor)
  {
    hide CacheOk, LedgerOk, Append, Inv, CacheInService, ReservationsMatch, ActiveDistinct;
    InServiceWithin(cfg, c, active, bounds);
    InvCacheOk(c);
    TableNotEmpty(c, r);
    var l := k.layers;
    AppendWithin(cfg, c, active, r, l, values, bounds);
    AppendGrows(c, r, l, values);
    OperationDefined(c, r);
    AppliedKeepsOthers(c, r, Append(c.shared, c.tables[r], l, c.tables[r].layers[l].count, values));
  }

  lemma AppendGrows(c: Cache, r: RequestId, l: nat, values: seq<KvEntry>)
    requires Inv(c) && CacheOk(c) && r in c.tables && l < |c.tables[r].layers| && l < c.shared.layerCount && values != []
    requires Append(c.shared, c.tables[r], l, c.tables[r].layers[l].count, values).result.Ok?
    ensures var table := Append(c.shared, c.tables[r], l, c.tables[r].layers[l].count, values).table;
            OnlyLayerGrew(c.tables[r], table, l) && table.layers[l].count == c.tables[r].layers[l].count + |values|
  {
    hide CacheOk, LedgerOk, Append;
    var ledger: Ledger :| Consistent(c, ledger);
    var _ := AppendExact(c, ledger, r, l, c.tables[r].layers[l].count, values);
  }

  // ---- Truncate -------------------------------------------------------------------------------

  /** A rollback to a count between the floor and the present count succeeds. */
  lemma TruncateAdvances(c: Cache, r: RequestId, k: Cached, floor: nat, target: nat, bounds: map<RequestId, nat>)
    requires Inv(c) && WithinBounds(c, bounds) && r in bounds && Shows(c, r, k, floor) && k.layers == 0 && floor <= target <= k.count
    ensures CacheOk(c) && CacheOpAllowed(c, r, TruncateC(target), bounds)
    ensures var step := CacheStepOf(c, r, TruncateC(target), bounds);
            && step.result.Ok? && OthersKept(c, Applied(c, r, step), r)
            && Shows(Applied(c, r, step), r, Cached(target, 0, 0), floor)
  {
    hide CacheOk, LedgerOk, Truncate, Inv;
    InvCacheOk(c);
    TableNotEmpty(c, r);
    TruncateWithin(c, r, target, bounds);
    assert WithinAllLayers(c.tables[r], target);
    TruncateCuts(c, r, target);
    AppliedKeepsOthers(c, r, Truncate(c.shared, c.tables[r], target));
  }

  lemma TruncateCuts(c: Cache, r: RequestId, target: nat)
    requires Inv(c) && CacheOk(c) && r in c.tables && AtOrAboveCursor(c, r, target) && WithinAllLayers(c.tables[r], target)
    ensures c.shared.pool.pageTokens > 0
    ensures var step := Truncate(c.shared, c.tables[r], target);
            && step.result.Ok? && step.table.path == c.tables[r].path && |step.table.layers| == |c.tables[r].layers|
            && forall l :: 0 <= l < |step.table.layers| ==> step.table.layers[l].count == target
  {
    hide CacheOk, LedgerOk, Truncate, WithinAllLayers, AtOrAboveCursor;
    TableNotEmpty(c, r);
    var ledger: Ledger :| Consistent(c, ledger);
    var _ := TruncateExact(c, ledger, r, target);
    TruncatedTable(c, r, target);
  }

  // ---- Publish --------------------------------------------------------------------------------

  /** The request's cursor goes to the last complete block of the cached tokens, and all its blocks are indexed. */
  ghost predicate PublishedThrough(c: Cache, c': Cache, r: RequestId, tokens: seq<Token>) {
    && r in c.tables && r in c'.tables && c.shared.pool.pageTokens > 0 && CachedCount(c.tables[r]) <= |tokens|
    && (c.shared.enabled ==>
          var (path, blocks) := (c.tables[r].path, Blocks(tokens[..CachedCount(c.tables[r])], c.shared.pool.pageTokens));
          && |path| <= |blocks| && c'.tables[r].path == path + blocks[|path|..]
          && forall k :: 0 < k <= |blocks| ==> c'.tables[r].path[..k] in c'.shared.trie)
  }

  /** Publishing a request between forward passes succeeds for any tokens that are at least as many as
      are cached, and publishes no more than is cached. */
  lemma PublishAdvances(c: Cache, r: RequestId, n: nat, floor: nat, tokens: seq<Token>, bounds: map<RequestId, nat>)
    requires Inv(c) && WithinBounds(c, bounds) && r in bounds && Shows(c, r, Cached(n, 0, 0), floor) && n <= |tokens|
    ensures CacheOk(c) && CacheOpAllowed(c, r, PublishC(tokens), bounds)
    ensures var step := CacheStepOf(c, r, PublishC(tokens), bounds);
            && step.result.Ok? && OthersKept(c, Applied(c, r, step), r)
            && Shows(Applied(c, r, step), r, Cached(n, 0, 0), n) && PublishedThrough(c, Applied(c, r, step), r, tokens)
  {
    hide CacheOk, LedgerOk, Publish, Inv, PublishedThrough;
    InvCacheOk(c);
    TableNotEmpty(c, r);
    assert CachedCount(c.tables[r]) == n;
    PublishWithin(c, r, tokens, bounds);
    PublishKeepsCounts(c, r, tokens);
    OperationDefined(c, r);
    AppliedKeepsOthers(c, r, Publish(c.shared, c.tables[r], tokens));
  }

  lemma PublishKeepsCounts(c: Cache, r: RequestId, tokens: seq<Token>)
    requires Inv(c) && CacheOk(c) && r in c.tables && Uniform(c.tables[r]) && CachedCount(c.tables[r]) <= |tokens|
    ensures var step := Publish(c.shared, c.tables[r], tokens);
            && step.result.Ok? && |step.table.layers| == |c.tables[r].layers|
            && (forall l :: 0 <= l < |step.table.layers| ==> step.table.layers[l].count == c.tables[r].layers[l].count)
            && |step.table.path| * Applied(c, r, step).shared.pool.pageTokens <= CachedCount(c.tables[r])
            && PublishedThrough(c, Applied(c, r, step), r, tokens)
  {
    TableNotEmpty(c, r);
    UniformIsComplete(c.shared, c.tables[r]);
    hide CacheOk, LedgerOk, Publish, Uniform, BlocksComplete, View;
    var ledger: Ledger :| Consistent(c, ledger);
    OperationDefined(c, r);
    var ledger' := PublishExact(c, ledger, r, tokens);
    var step := Publish(c.shared, c.tables[r], tokens);
    var c' := Applied(c, r, step);
    assert Consistent(c', ledger') && c'.tables[r] == step.table;
    TableNotEmpty(c, r);
    PathWithinCount(c', r, 0);
    PathIndexed(c', r);
  }

  lemma PathIndexed(c: Cache, r: RequestId)
    requires CacheOk(c) && r in c.tables
    ensures forall k :: 0 < k <= |c.tables[r].path| ==> c.tables[r].path[..k] in c.shared.trie
  {
    assert TableOk(c.shared, c.tables[r]);
  }

  // ---- Restore, start and removal ---------------------------------------------------------------

  /** The tokens of the longest indexed run of complete blocks. */
  ghost function Reusable(c: Cache, tokens: seq<Token>): nat
    requires c.shared.pool.pageTokens > 0
  {
    if c.shared.enabled then LongestMatch(c.shared.trie, Blocks(tokens, c.shared.pool.pageTokens)) * c.shared.pool.pageTokens else 0
  }

  /** Restoring into a request that holds nothing succeeds, and attaches no more than was asked for. */
  lemma RestoreAdvances(c: Cache, r: RequestId, tokens: seq<Token>, bounds: map<RequestId, nat>)
    requires Inv(c) && WithinBounds(c, bounds) && r in bounds && Shows(c, r, Cached(0, 0, 0), 0) && |tokens| <= bounds[r]
    ensures CacheOk(c) && CacheOpAllowed(c, r, RestoreC(tokens), bounds)
    ensures var step := CacheStepOf(c, r, RestoreC(tokens), bounds);
            && step.result.Ok? && step.result.value <= |tokens| && OthersKept(c, Applied(c, r, step), r)
            && c.shared.pool.pageTokens > 0 && step.result.value == Reusable(c, tokens)
            && Shows(Applied(c, r, step), r, Cached(step.result.value, 0, 0), step.result.value)
            && |Applied(c, r, step).tables[r].layers| == |c.tables[r].layers|
  {
    hide CacheOk, LedgerOk, Restore, Inv;
    InvCacheOk(c);
    TableNotEmpty(c, r);
    NotPopulated(c, r);
    RestoreWithin(c, r, tokens, bounds);
    RestoreCounts(c, r, tokens);
    OperationDefined(c, r);
    AppliedKeepsOthers(c, r, Restore(c.shared, c.tables[r], tokens));
  }

  lemma NotPopulated(c: Cache, r: RequestId)
    requires CacheOk(c) && Shows(c, r, Cached(0, 0, 0), 0)
    ensures !IsPopulated(c.tables[r])
  {
    TableNotEmpty(c, r);
    forall l | 0 <= l < |c.tables[r].layers| ensures c.tables[r].layers[l].pages == [] {
      assert LayerOk(c.shared, c.tables[r], l);
      CeilDivForm(0, c.shared.pool.pageTokens);
    }
  }

  lemma RestoreCounts(c: Cache, r: RequestId, tokens: seq<Token>)
    requires Inv(c) && CacheOk(c) && Shows(c, r, Cached(0, 0, 0), 0) && !IsPopulated(c.tables[r])
    ensures var step := Restore(c.shared, c.tables[r], tokens);
            && step.result.Ok? && step.result.value <= |tokens| && |step.table.layers| == |c.tables[r].layers|
            && c.shared.pool.pageTokens > 0 && step.result.value == Reusable(c, tokens)
            && (forall l :: 0 <= l < |step.table.layers| ==> step.table.layers[l].count == step.result.value)
            && |step.table.path| * Applied(c, r, step).shared.pool.pageTokens <= step.result.value
  {
    hide CacheOk, LedgerOk, Restore, IsPopulated;
    var ledger: Ledger :| Consistent(c, ledger);
    OperationDefined(c, r);
    var ledger' := RestoreExact(c, ledger, r, tokens);
    RestoreSizes(c, ledger, r, tokens);
    var step := Restore(c.shared, c.tables[r], tokens);
    var c' := Applied(c, r, step);
    assert Consistent(c', ledger') && c'.tables[r] == step.table;
    TableNotEmpty(c, r);
    if c.shared.enabled {
      MatchedTokens(c, tokens, LongestMatch(c.shared.trie, Blocks(tokens, c.shared.pool.pageTokens)));
    } else {
      AppliedTable(c, r, step);
    }
    PathWithinCount(c', r, 0);
  }

  lemma {:induction false} StartAllShows(c: Cache, ids: seq<RequestId>)
    requires Distinct(ids) && forall i :: 0 <= i < |ids| ==> ids[i] !in c.tables
    ensures var c' := StartAll(c, ids);
            && SameSize(c, c') && c'.tables.Keys == c.tables.Keys + PrefixCacheFlight.Elements(ids)
            && (forall x :: x in c.tables ==> c'.tables[x] == c.tables[x])
            && (forall x :: x in ids ==> Shows(c', x, Cached(0, 0, 0), 0))
    decreases |ids|
  {
    if ids != [] {
      var rest, c1 := ids[1..], Started(c, ids[0]);
      assert ids == [ids[0]] + rest;
      forall i | 0 <= i < |rest| ensures rest[i] !in c1.tables { assert rest[i] == ids[i + 1] && ids[i + 1] != ids[0]; }
      assert Distinct(rest) by { forall i, j | 0 <= i < j < |rest| ensures rest[i] != rest[j] { assert rest[i] == ids[i + 1]; } }
      StartAllShows(c1, rest);
      assert Shows(c1, ids[0], Cached(0, 0, 0), 0);
    }
  }

  lemma RemovedShows(c: Cache, r: RequestId)
    requires Inv(c) && r in c.tables
    ensures var c' := CacheRelease.Removed(c, r);
            SameSize(c, c') && c'.tables == c.tables - {r}
  {
    hide Inv, CacheRelease.Removed;
    RemovedInv(c, r);
    RemovedShape(c, r);
  }
}
