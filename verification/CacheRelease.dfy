/** Truncation, reset, and the start and removal of a request. */
module CacheRelease {
  import opened Common
  import opened Arithmetic
  import opened CacheErrors
  import opened PagePool
  import opened PrefixTrie
  import opened PagedCacheSpec
  import opened CacheInvariant
  import opened CacheAppend

  /** What the released tail of a table is: its positions from `keep` on, over all layers. */
  ghost predicate InTail(c: Cache, r: RequestId, keep: nat, o: Slot)
    requires r in c.tables
  {
    match o
    case Pending(x, _, i) => x == r && i >= keep
    case Indexed(q, _) => r in Users(c.tables, q) && |q| > keep
  }

  lemma TailMembers(c: Cache, ledger: Ledger, r: RequestId, keep: nat, p: PageId)
    requires Consistent(c, ledger) && r in c.tables
    ensures p in Flatten(TailRows(c.tables[r], keep)) <==> p in ledger && InTail(c, r, keep, ledger[p])
  {
    var rows := TailRows(c.tables[r], keep);
    FlattenMembers(rows, p);
    if p in ledger && InTail(c, r, keep, ledger[p]) { TailSlotInRows(c, ledger, r, keep, p); }
    hide CacheOk, LedgerOk, Consistent, TailRows, InTail;
    if l, j :| 0 <= l < |rows| && 0 <= j < |rows[l]| && rows[l][j] == p {
      TailRowInLedger(c, ledger, r, keep, l, j);
    }
  }

  lemma TailRowInLedger(c: Cache, ledger: Ledger, r: RequestId, keep: nat, l: nat, j: nat)
    requires Consistent(c, ledger) && r in c.tables
    requires l < |TailRows(c.tables[r], keep)| && j < |TailRows(c.tables[r], keep)[l]|
    ensures var p := TailRows(c.tables[r], keep)[l][j]; p in ledger && InTail(c, r, keep, ledger[p])
  {
    hide PrefixClosed, StampsOk, NodesShaped, FreeListExact, LedgerOk, Div, Mod, CeilDiv;
    PageInLedger(c, ledger, r, l, keep + j);
  }

  lemma TailSlotInRows(c: Cache, ledger: Ledger, r: RequestId, keep: nat, p: PageId)
    requires Consistent(c, ledger) && r in c.tables && p in ledger && InTail(c, r, keep, ledger[p])
    ensures var rows := TailRows(c.tables[r], keep);
            exists l, j :: 0 <= l < |rows| && 0 <= j < |rows[l]| && rows[l][j] == p
  {
    hide StampsOk, FreeListExact, Div, Mod, CeilDiv;
    var rows := TailRows(c.tables[r], keep);
    match ledger[p]
    case Pending(x, l, i) =>
      assert rows[l][i - keep] == p;
    case Indexed(q, l) =>
      UserHoldsPage(c, ledger, p, q, l, r);
      assert rows[l][|q| - 1 - keep] == p;
  }

  lemma TailPage(c: Cache, ledger: Ledger, r: RequestId, keep: nat, i: nat, j: nat)
    requires Consistent(c, ledger) && r in c.tables
    requires i < |TailRows(c.tables[r], keep)| && j < |TailRows(c.tables[r], keep)[i]|
    ensures var p := TailRows(c.tables[r], keep)[i][j];
            && CacheOk(c) && i < c.shared.layerCount && i < |c.tables[r].layers| && keep + j < |c.tables[r].layers[i].pages|
            && p in ledger && ledger[p] == OccurrenceSlot(c, r, i, keep + j)
  {
    assert |c.tables[r].layers| == c.shared.layerCount by { assert TableOk(c.shared, c.tables[r]); }
    hide Consistent;
    PageInLedger(c, ledger, r, i, keep + j);
  }

  lemma SlotsInjective(c: Cache, r: RequestId, l: nat, k: nat, l': nat, k': nat)
    requires CacheOk(c) && r in c.tables && l < c.shared.layerCount && l' < c.shared.layerCount
    requires l < |c.tables[r].layers| && l' < |c.tables[r].layers|
    requires k < |c.tables[r].layers[l].pages| && k' < |c.tables[r].layers[l'].pages|
    requires OccurrenceSlot(c, r, l, k) == OccurrenceSlot(c, r, l', k')
    ensures l == l' && k == k'
  {
    var path := c.tables[r].path;
    if k < |path| && k' < |path| { assert |path[..k + 1]| == k + 1 && |path[..k' + 1]| == k' + 1; }
  }

  lemma TailDistinct(c: Cache, ledger: Ledger, r: RequestId, keep: nat)
    requires Consistent(c, ledger) && r in c.tables
    ensures Distinct(Flatten(TailRows(c.tables[r], keep)))
  {
    hide Consistent, TailRows, CacheOk;
    var rows := TailRows(c.tables[r], keep);
    forall i, j, i', j' |
      0 <= i < |rows| && 0 <= j < |rows[i]| && 0 <= i' < |rows| && 0 <= j' < |rows[i']| && rows[i][j] == rows[i'][j']
      ensures i == i' && j == j'
    {
      TailPage(c, ledger, r, keep, i, j);
      TailPage(c, ledger, r, keep, i', j');
      SlotsInjective(c, r, i, keep + j, i', keep + j');
    }
    FlattenDistinct(rows);
  }

  /** Releasing a tail never fails and takes each of its pages one owner back. */
  lemma ReleaseTail(c: Cache, ledger: Ledger, r: RequestId, keep: nat)
    requires Consistent(c, ledger) && r in c.tables
    ensures var released := ReleaseAll(c.shared.pool, Flatten(TailRows(c.tables[r], keep)));
            var p, p' := c.shared.pool, released.pool;
            && released.error == None && PoolOk(p')
            && |p'.states| == |p.states| && p'.pages == p.pages && p'.pageTokens == p.pageTokens
            && (forall i :: 0 <= i < |p.states| ==>
                 if i in ledger && InTail(c, r, keep, ledger[i]) then p.states[i].Release() == Ok(p'.states[i])
                 else p'.states[i] == p.states[i])
  {
    hide PrefixClosed, StampsOk, NodesShaped, FreeListExact, TableOk, TailRows;
    var ids: seq<PageId> := Flatten(TailRows(c.tables[r], keep));
    TailDistinct(c, ledger, r, keep);
    forall i | 0 <= i < |ids|
      ensures ids[i] < |c.shared.pool.states| && c.shared.pool.states[ids[i]].Release().Ok?
    {
      TailMembers(c, ledger, r, keep, ids[i]);
      if ledger[ids[i]].Indexed? { assert r in Users(c.tables, ledger[ids[i]].path); }
    }
    hide CacheOk, LedgerOk, PrefixClosed, StampsOk;
    forall i | 0 <= i < |c.shared.pool.states| { TailMembers(c, ledger, r, keep, i); }
    assert PoolOk(c.shared.pool);
    ReleaseAllEffect(c.shared.pool, ids);
  }

  /** A request's tables cut back to `keep` pages per layer: either a truncation, which leaves the
      cursor where it is, or a reset, which keeps nothing and moves the cursor to the root. */
  ghost predicate CutStep(c: Cache, ledger: Ledger, c': Cache, r: RequestId, keep: nat, target: nat, path: Path) {
    && Consistent(c, ledger) && r in c.tables && SharedShaped(c.shared)
    && ((path == c.tables[r].path && keep >= |path|) || (keep == 0 && path == []))
    && keep == CeilDiv(target, c.shared.pool.pageTokens) && |path| <= Div(target, c.shared.pool.pageTokens)
    && (forall l :: 0 <= l < |c.tables[r].layers| ==> target <= c.tables[r].layers[l].count && keep <= |c.tables[r].layers[l].pages|)
    && c'.shared == c.shared.(pool := ReleaseAll(c.shared.pool, Flatten(TailRows(c.tables[r], keep))).pool)
    && c'.tables == c.tables[r := CutTable(c.tables[r], keep, target).(path := path)]
  }

  ghost predicate Dropped(r: RequestId, keep: nat, o: Slot) {
    o.Pending? && o.request == r && o.index >= keep
  }

  ghost function RemainingLedger(ledger: Ledger, r: RequestId, keep: nat): Ledger {
    map p | p in ledger && !Dropped(r, keep, ledger[p]) :: ledger[p]
  }

  lemma CutKeepsCacheOk(c: Cache, ledger: Ledger, c': Cache, r: RequestId, keep: nat, target: nat, path: Path)
    requires CutStep(c, ledger, c', r, keep, target, path)
    ensures CacheOk(c')
  {
    hide ReleaseAll, LedgerOk, Div, Mod, CeilDiv, PrefixClosed, StampsOk, FreeListExact;
    ReleaseTail(c, ledger, r, keep);
    var t, t' := c.tables[r], c'.tables[r];
    assert c'.tables.Keys == c.tables.Keys;
    forall l | 0 <= l < c'.shared.layerCount
      ensures LayerOk(c'.shared, t', l)
    {
      assert LayerOk(c.shared, t, l);
    }
    forall x | x in c'.tables
      ensures TableOk(c'.shared, c'.tables[x])
    {
      if x != r { TableOkTransfer(c.shared, c'.shared, c.tables[x]); }
    }
  }

  lemma CutSlots(c: Cache, ledger: Ledger, c': Cache, r: RequestId, keep: nat, target: nat, path: Path, o: Slot)
    requires CutStep(c, ledger, c', r, keep, target, path)
    ensures IsSlot(c', o) <==> IsSlot(c, o) && !Dropped(r, keep, o)
    ensures IsSlot(c', o) ==> PageAt(c', o) == PageAt(c, o)
  {
    hide ReleaseAll, Consistent, Div, Mod, CeilDiv, Shaped, NodesShaped;
  }

  lemma CutUsers(c: Cache, c': Cache, r: RequestId, keep: nat, path: Path, q: Path)
    requires r in c.tables && q != []
    requires c'.tables.Keys == c.tables.Keys && (forall x :: x in c.tables && x != r ==> c'.tables[x] == c.tables[x])
    requires c'.tables[r].path == path && ((path == c.tables[r].path && keep >= |path|) || (keep == 0 && path == []))
    ensures Users(c'.tables, q) == if r in Users(c.tables, q) && |q| > keep then Users(c.tables, q) - {r} else Users(c.tables, q)
  {
  }

  lemma CutPageAccounted(c: Cache, ledger: Ledger, c': Cache, r: RequestId, keep: nat, target: nat, path: Path, p: PageId)
    requires CutStep(c, ledger, c', r, keep, target, path)
    ensures PageAccounted(c', RemainingLedger(ledger, r, keep), p)
  {
    hide ReleaseAll, StampsOk, FreeListExact, Div, Mod, CeilDiv, NodesShaped, TableOk, IsSlot, PageAt, Users;
    assert LedgerOk(c, ledger) && PrefixClosed(c.shared.trie);
    ReleaseTail(c, ledger, r, keep);
    if p in ledger {
      var o := ledger[p];
      assert IsSlot(c, o) && PageAt(c, o) == p;
      CutSlots(c, ledger, c', r, keep, target, path, o);
      if o.Indexed? {
        IndexedPath(c, ledger, p, o.path, o.layer);
        CutUsers(c, c', r, keep, path, o.path);
      }
    }
  }

  /** Giving up a tail keeps the cache consistent. */
  lemma CutKeepsConsistent(c: Cache, ledger: Ledger, c': Cache, r: RequestId, keep: nat, target: nat, path: Path)
    requires CutStep(c, ledger, c', r, keep, target, path)
    ensures Consistent(c', RemainingLedger(ledger, r, keep))
  {
    CutKeepsCacheOk(c, ledger, c', r, keep, target, path);
    var ledger' := RemainingLedger(ledger, r, keep);
    assert LedgerOk(c, ledger);
    hide CacheOk, CutStep, PageAccounted, IsSlot, PageAt;
    forall o
      ensures SlotRecorded(c', ledger', o)
    {
      CutSlots(c, ledger, c', r, keep, target, path, o);
    }
    forall p: PageId
      ensures PageAccounted(c', ledger', p)
    {
      CutPageAccounted(c, ledger, c', r, keep, target, path, p);
    }
    hide LedgerOk, SlotRecorded;
    LedgerFromParts(c', ledger');
  }

  /** Cutting one request's tables changes no other request's view. */
  lemma CutIsolated(c: Cache, ledger: Ledger, c': Cache, r: RequestId, keep: nat, target: nat, path: Path, x: RequestId, m: nat)
    requires CutStep(c, ledger, c', r, keep, target, path) && CacheOk(c') && x != r
    ensures ViewKept(c, c', x, m)
  {
    hide ReleaseAll, LedgerOk, Div, Mod, CeilDiv, PrefixClosed, StampsOk, FreeListExact, NodesShaped;
    ReleaseTail(c, ledger, r, keep);
    if x in c.tables && m < c.shared.layerCount {
      LayerView(c, x, m);
      LayerView(c', x, m);
      var layer := c.tables[x].layers[m];
      assert forall i :: 0 <= i < layer.count ==> EntryAt(c'.shared.pool, layer, i) == EntryAt(c.shared.pool, layer, i);
    }
  }

  /** The cut request's own views keep their first `target` entries. */
  lemma CutViews(c: Cache, ledger: Ledger, c': Cache, r: RequestId, keep: nat, target: nat, path: Path, m: nat)
    requires CutStep(c, ledger, c', r, keep, target, path) && CacheOk(c') && m < c.shared.layerCount
    ensures m < |c.tables[r].layers| && m < |c'.tables[r].layers|
    ensures ViewDefined(c.shared.pool, c.tables[r].layers[m]) && ViewDefined(c'.shared.pool, c'.tables[r].layers[m])
    ensures target <= c.tables[r].layers[m].count
    ensures View(c'.shared.pool, c'.tables[r].layers[m]) == View(c.shared.pool, c.tables[r].layers[m])[..target]
  {
    hide ReleaseAll, LedgerOk, Div, Mod, CeilDiv, PrefixClosed, StampsOk, FreeListExact, NodesShaped;
    ReleaseTail(c, ledger, r, keep);
    LayerView(c, r, m);
    LayerView(c', r, m);
    var layer, layer' := c.tables[r].layers[m], c'.tables[r].layers[m];
    forall i | 0 <= i < target
      ensures EntryAt(c'.shared.pool, layer', i) == EntryAt(c.shared.pool, layer, i)
    {
      PageOfIndex(i, target, c.shared.pool.pageTokens);
    }
  }

  // ---- The operations ------------------------------------------------------------------------

  /** The callers' discipline: never truncate below what the request restored or published. */
  ghost predicate AtOrAboveCursor(c: Cache, r: RequestId, target: nat)
    requires r in c.tables
  {
    target >= |c.tables[r].path| * c.shared.pool.pageTokens
  }

  ghost predicate WithinAllLayers(t: Table, target: nat) {
    forall l :: 0 <= l < |t.layers| ==> target <= t.layers[l].count
  }

  lemma TruncateIsCut(c: Cache, ledger: Ledger, r: RequestId, target: nat)
    requires Consistent(c, ledger) && r in c.tables && AtOrAboveCursor(c, r, target)
    requires WithinAllLayers(c.tables[r], target)
    ensures CutStep(c, ledger, Applied(c, r, Truncate(c.shared, c.tables[r], target)), r,
                    CeilDiv(target, c.shared.pool.pageTokens), target, c.tables[r].path)
  {
    hide PrefixClosed, StampsOk, FreeListExact, NodesShaped, LedgerOk, ReleaseAll, Div, Mod, CeilDiv;
    var size, t := c.shared.pool.pageTokens, c.tables[r];
    MulDiv(|t.path|, size);
    DivMonotone(|t.path| * size, target, size);
    CeilDivBounds(target, size);
    forall l | 0 <= l < |t.layers|
      ensures CeilDiv(target, size) <= |t.layers[l].pages|
    {
      assert LayerOk(c.shared, t, l);
      CeilDivMonotone(target, t.layers[l].count, size);
    }
  }

  /** Truncation at or above the cursor takes a prefix of each of the request's views, changes no
      other request, and is refused without effect when some layer is already shorter. */
  lemma TruncateExact(c: Cache, ledger: Ledger, r: RequestId, target: nat) returns (ledger': Ledger)
    requires Consistent(c, ledger) && r in c.tables && AtOrAboveCursor(c, r, target)
    ensures var step := Truncate(c.shared, c.tables[r], target);
            var c' := Applied(c, r, step);
            && Consistent(c', ledger')
            && (!WithinAllLayers(c.tables[r], target) ==> step.result == Err(CannotTruncate) && c' == c)
            && (WithinAllLayers(c.tables[r], target) ==> step.result == Ok(target) && step.table.path == c.tables[r].path)
            && (forall x, m: nat :: x != r ==> ViewKept(c, c', x, m))
            && (WithinAllLayers(c.tables[r], target) ==> forall m :: 0 <= m < c.shared.layerCount ==> CutTo(c, c', r, m, target))
  {
    hide CutStep, LedgerOk, ReleaseAll, Div, Mod, CeilDiv, PrefixClosed, StampsOk, FreeListExact, NodesShaped;
    var step := Truncate(c.shared, c.tables[r], target);
    var c' := Applied(c, r, step);
    if WithinAllLayers(c.tables[r], target) {
      TruncateIsCut(c, ledger, r, target);
      var keep, path := CeilDiv(target, c.shared.pool.pageTokens), c.tables[r].path;
      ReleaseTail(c, ledger, r, keep);
      CutKeepsConsistent(c, ledger, c', r, keep, target, path);
      ledger' := RemainingLedger(ledger, r, keep);
      hide CacheOk, Truncate;
      forall x, m: nat | x != r ensures ViewKept(c, c', x, m) { CutIsolated(c, ledger, c', r, keep, target, path, x, m); }
      forall m | 0 <= m < c.shared.layerCount ensures CutTo(c, c', r, m, target) { CutViews(c, ledger, c', r, keep, target, path, m); }
    } else {
      ledger' := ledger;
      assert c.tables[r := c.tables[r]] == c.tables;
      SamePagesSameViews(c, c');
    }
  }

  ghost predicate CutTo(c: Cache, c': Cache, r: RequestId, m: nat, target: nat) {
    && r in c.tables && r in c'.tables && m < |c.tables[r].layers| && m < |c'.tables[r].layers|
    && ViewDefined(c.shared.pool, c.tables[r].layers[m]) && ViewDefined(c'.shared.pool, c'.tables[r].layers[m])
    && target <= c.tables[r].layers[m].count && c'.tables[r].layers[m].count == target
    && View(c'.shared.pool, c'.tables[r].layers[m]) == View(c.shared.pool, c.tables[r].layers[m])[..target]
  }

  lemma ResetIsCut(c: Cache, ledger: Ledger, r: RequestId)
    requires Consistent(c, ledger) && r in c.tables
    ensures CutStep(c, ledger, Applied(c, r, Reset(c.shared, c.tables[r])), r, 0, 0, [])
  {
    hide PrefixClosed, StampsOk, FreeListExact, NodesShaped, LedgerOk, ReleaseAll, Div, Mod, CeilDiv;
    CeilDivBounds(0, c.shared.pool.pageTokens);
  }

  ghost predicate HoldsNothing(t: Table) {
    t.path == [] && forall l :: 0 <= l < |t.layers| ==> t.layers[l] == LayerTable([], 0)
  }

  /** A truncation to any count that every layer has succeeds and takes a prefix of each view, even below
      the cursor. */
  lemma TruncateCutsViews(c: Cache, ledger: Ledger, r: RequestId, target: nat)
    requires Consistent(c, ledger) && r in c.tables && c.shared.pool.pageTokens > 0 && WithinAllLayers(c.tables[r], target)
    ensures var step := Truncate(c.shared, c.tables[r], target);
            && step.result == Ok(target)
            && forall m :: 0 <= m < |c.tables[r].layers| ==> CutTo(c, Applied(c, r, step), r, m, target)
  {
    hide CacheOk, LedgerOk, ReleaseAll, Div, Mod, CeilDiv, ViewDefined, View, FreeListExact;
    var size := c.shared.pool.pageTokens;
    var keep := CeilDiv(target, size);
    ReleaseTail(c, ledger, r, keep);
    TableNotEmpty(c, r);
    var step := Truncate(c.shared, c.tables[r], target);
    var c' := Applied(c, r, step);
    forall m | 0 <= m < |c.tables[r].layers| ensures CutTo(c, c', r, m, target) {
      LayerView(c, r, m);
      PagesOfCount(c, r, m);
      CeilDivMonotone(target, c.tables[r].layers[m].count, size);
      CutLayerView(c.shared.pool, c'.shared.pool, c.tables[r].layers[m], c'.tables[r].layers[m], keep, target);
    }
  }

  lemma PagesOfCount(c: Cache, r: RequestId, m: nat)
    requires CacheOk(c) && r in c.tables && m < |c.tables[r].layers|
    ensures c.shared.pool.pageTokens > 0 && |c.tables[r].layers[m].pages| == CeilDiv(c.tables[r].layers[m].count, c.shared.pool.pageTokens)
  {
    assert LayerOk(c.shared, c.tables[r], m);
  }

  lemma CutLayerView(p: Pool, p': Pool, layer: LayerTable, layer': LayerTable, keep: nat, target: nat)
    requires ViewDefined(p, layer) && Shaped(p') && p'.pages == p.pages && p'.pageTokens == p.pageTokens && |p'.states| == |p.states|
    requires keep == CeilDiv(target, p.pageTokens) <= |layer.pages| && target <= layer.count
    requires layer' == LayerTable(layer.pages[..keep], target)
    ensures ViewDefined(p', layer') && View(p', layer') == View(p, layer)[..target]
  {
    hide Div, Mod, CeilDiv;
    forall i | 0 <= i < target
      ensures EntryAt(p', layer', i) == EntryAt(p, layer, i)
    {
      PageOfIndex(i, target, p.pageTokens);
    }
  }

  /** A truncation that succeeds keeps the cache in order if and only if it stays at or above the cursor:
      below it the request's path names blocks whose tokens the request no longer has. */
  lemma TruncateKeepsInvIff(c: Cache, r: RequestId, target: nat)
    requires Inv(c) && r in c.tables
    ensures c.shared.pool.pageTokens > 0
    ensures var c' := Applied(c, r, Truncate(c.shared, c.tables[r], target));
            if WithinAllLayers(c.tables[r], target) then Inv(c') <==> AtOrAboveCursor(c, r, target) else c' == c
  {
    hide CacheOk, LedgerOk, Truncate, AtOrAboveCursor, WithinAllLayers, Applied;
    var ledger: Ledger :| Consistent(c, ledger);
    TableNotEmpty(c, r);
    if AtOrAboveCursor(c, r, target) {
      var _ := TruncateExact(c, ledger, r, target);
    } else if WithinAllLayers(c.tables[r], target) {
      var c' := Applied(c, r, Truncate(c.shared, c.tables[r], target));
      TruncatedTable(c, r, target);
      if Inv(c') {
        var ledger': Ledger :| Consistent(c', ledger');
        PathWithinLayer(c', r, 0);
        BelowCursor(c, r, target);
      }
    } else {
      RefusedTruncate(c, r, target);
    }
  }

  lemma TruncatedTable(c: Cache, r: RequestId, target: nat)
    requires r in c.tables && c.shared.pool.pageTokens > 0 && WithinAllLayers(c.tables[r], target)
    ensures var c' := Applied(c, r, Truncate(c.shared, c.tables[r], target));
            && r in c'.tables && c'.tables[r].path == c.tables[r].path && |c'.tables[r].layers| == |c.tables[r].layers|
            && c'.shared.pool.pageTokens == c.shared.pool.pageTokens
            && forall l :: 0 <= l < |c'.tables[r].layers| ==> c'.tables[r].layers[l].count == target
  {
    hide TailRows, Flatten, Div, Mod, CeilDiv;
    ReleaseSizes(c.shared.pool, Flatten(TailRows(c.tables[r], CeilDiv(target, c.shared.pool.pageTokens))));
  }

  lemma BelowCursor(c: Cache, r: RequestId, target: nat)
    requires r in c.tables && c.shared.pool.pageTokens > 0 && !AtOrAboveCursor(c, r, target)
    ensures Div(target, c.shared.pool.pageTokens) < |c.tables[r].path|
  {
    hide Div, Mod;
    var size, k := c.shared.pool.pageTokens, |c.tables[r].path|;
    DivMod(target, size);
    if Div(target, size) >= k { Scale(size, k, Div(target, size)); }
  }

  lemma RefusedTruncate(c: Cache, r: RequestId, target: nat)
    requires r in c.tables && c.shared.pool.pageTokens > 0 && !WithinAllLayers(c.tables[r], target)
    ensures Applied(c, r, Truncate(c.shared, c.tables[r], target)) == c
  {
    assert c.tables[r := c.tables[r]] == c.tables;
  }

  /** A request that holds nothing can come or go without notice. */
  lemma EmptyTableIrrelevant(c: Cache, c': Cache, ledger: Ledger, r: RequestId)
    requires Consistent(c, ledger) && CacheOk(c') && c'.shared == c.shared
    requires c'.tables - {r} == c.tables - {r}
    requires (r in c.tables ==> HoldsNothing(c.tables[r])) && (r in c'.tables ==> HoldsNothing(c'.tables[r]))
    ensures Consistent(c', ledger)
  {
    hide StampsOk, FreeListExact, NodesShaped, TableOk, HoldsNothing, SlotRecorded, PageAccounted, CacheOk;
    SameBut(c, c', r);
    BlocksNotEmpty(c);
    forall o ensures SlotRecorded(c', ledger, o) { SlotStays(c, c', ledger, r, o); }
    forall p: PageId ensures PageAccounted(c', ledger, p) { PageStays(c, c', ledger, r, p); }
    LedgerFromParts(c', ledger);
  }

  /** Everybody but r has the same table. */
  ghost predicate OthersHave(c: Cache, c': Cache, r: RequestId) {
    forall x :: x != r ==> (x in c.tables <==> x in c'.tables) && (x in c.tables ==> c'.tables[x] == c.tables[x])
  }

  lemma SameBut(c: Cache, c': Cache, r: RequestId)
    requires c'.tables - {r} == c.tables - {r}
    ensures OthersHave(c, c', r)
  {
    forall x | x != r
      ensures (x in c.tables <==> x in c'.tables) && (x in c.tables ==> c'.tables[x] == c.tables[x])
    {
      assert x in c.tables <==> x in c.tables - {r};
      assert x in c'.tables <==> x in c'.tables - {r};
    }
  }

  /** A request without pages has no slots. */
  lemma SlotsSame(c: Cache, c': Cache, r: RequestId, o: Slot)
    requires c'.shared == c.shared && OthersHave(c, c', r)
    requires (r in c.tables ==> HoldsNothing(c.tables[r])) && (r in c'.tables ==> HoldsNothing(c'.tables[r]))
    ensures (IsSlot(c', o) <==> IsSlot(c, o)) && (IsSlot(c, o) ==> PageAt(c', o) == PageAt(c, o))
  {
  }

  lemma SlotStays(c: Cache, c': Cache, ledger: Ledger, r: RequestId, o: Slot)
    requires LedgerOk(c, ledger) && c'.shared == c.shared && OthersHave(c, c', r)
    requires (r in c.tables ==> HoldsNothing(c.tables[r])) && (r in c'.tables ==> HoldsNothing(c'.tables[r]))
    ensures SlotRecorded(c', ledger, o)
  {
    SlotsSame(c, c', r, o);
    hide HoldsNothing, IsSlot, PageAt;
  }

  lemma PageStays(c: Cache, c': Cache, ledger: Ledger, r: RequestId, p: PageId)
    requires LedgerOk(c, ledger) && c'.shared == c.shared && OthersHave(c, c', r)
    requires forall q :: q in c.shared.trie ==> q != []
    requires (r in c.tables ==> HoldsNothing(c.tables[r])) && (r in c'.tables ==> HoldsNothing(c'.tables[r]))
    ensures PageAccounted(c', ledger, p)
  {
    if p in ledger {
      SlotsSame(c, c', r, ledger[p]);
      if ledger[p].Indexed? { assert Users(c'.tables, ledger[p].path) == Users(c.tables, ledger[p].path); }
    }
    hide HoldsNothing;
  }

  function Removed(c: Cache, r: RequestId): Cache
    requires r in c.tables
  {
    Cache(Reset(c.shared, c.tables[r]).shared, c.tables - {r})
  }

  function Started(c: Cache, r: RequestId): Cache {
    c.(tables := c.tables[r := EmptyTable(c.shared.layerCount)])
  }

  lemma RemainingTablesSmaller(c: Cache, r: RequestId)
    requires r in c.tables
    ensures |c.tables - {r}| == |c.tables| - 1
  {
    assert (c.tables - {r}).Keys == c.tables.Keys - {r};
  }

  /** Removing a request releases everything it owns, without failing and without touching any other
      request's view. */
  lemma RemoveExact(c: Cache, ledger: Ledger, r: RequestId) returns (ledger': Ledger)
    requires Consistent(c, ledger) && r in c.tables
    ensures Reset(c.shared, c.tables[r]).result == Ok(0)
    ensures Consistent(Removed(c, r), ledger')
    ensures forall x, m: nat :: x != r ==> ViewKept(c, Removed(c, r), x, m)
    ensures Removed(c, r).shared == c.shared.(pool := Removed(c, r).shared.pool)
  {
    hide CutStep, LedgerOk, ReleaseAll, Div, Mod, CeilDiv, PrefixClosed, StampsOk, FreeListExact, NodesShaped, ViewKept;
    ResetIsCut(c, ledger, r);
    var c1 := Applied(c, r, Reset(c.shared, c.tables[r]));
    ReleaseTail(c, ledger, r, 0);
    CutKeepsConsistent(c, ledger, c1, r, 0, 0, []);
    ledger' := RemainingLedger(ledger, r, 0);
    var c' := Removed(c, r);
    RemainingTablesSmaller(c, r);
    assert forall x :: x in c'.tables ==> x in c1.tables && c'.tables[x] == c1.tables[x];
    assert c'.tables - {r} == c1.tables - {r};
    assert HoldsNothing(c1.tables[r]);
    assert CacheOk(c');
    EmptyTableIrrelevant(c1, c', ledger', r);
    forall x, m: nat | x != r
      ensures ViewKept(c, c', x, m)
    {
      CutIsolated(c, ledger, c1, r, 0, 0, [], x, m);
      SameTableSameView(c, c1, c', x, m);
    }
  }

  lemma SameTableSameView(c: Cache, c1: Cache, c': Cache, x: RequestId, m: nat)
    requires CacheOk(c) && CacheOk(c1) && CacheOk(c') && ViewKept(c, c1, x, m) && c'.shared == c1.shared
    requires x in c1.tables ==> x in c'.tables && c'.tables[x] == c1.tables[x]
    ensures ViewKept(c, c', x, m)
  {
    hide SharedOk, TableOk, View;
    if x in c.tables && m < c.shared.layerCount {
      LayerView(c, x, m);
      LayerView(c1, x, m);
      LayerView(c', x, m);
    }
  }

  /** A started request owns nothing yet and sees nothing. */
  lemma StartExact(c: Cache, ledger: Ledger, r: RequestId)
    requires Consistent(c, ledger) && r !in c.tables && |c.tables| < MAX_READERS
    ensures Consistent(Started(c, r), ledger)
    ensures forall x, m: nat :: x != r ==> ViewKept(c, Started(c, r), x, m)
  {
    hide LedgerOk, Div, Mod, PrefixClosed, StampsOk, FreeListExact, NodesShaped, View;
    var c' := Started(c, r);
    var t := c'.tables[r];
    CeilDivBounds(0, c.shared.pool.pageTokens);
    assert TableOk(c.shared, t) by {
      forall l | 0 <= l < c.shared.layerCount ensures LayerOk(c.shared, t, l) { assert t.layers[l] == LayerTable([], 0); }
    }
    assert c'.tables - {r} == c.tables - {r};
    assert CacheOk(c');
    EmptyTableIrrelevant(c, c', ledger, r);
  }
}
