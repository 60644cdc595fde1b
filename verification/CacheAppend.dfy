/** An append extends one layer's view, keeps the cache consistent and touches nothing else. */
module CacheAppend {
  import opened Common
  import opened Arithmetic
  import opened CacheErrors
  import opened PagePool
  import opened PrefixTrie
  import opened PagedCacheSpec
  import opened CacheInvariant
  import opened CacheEviction

  /** The cache with one request's step applied. */
  function Applied(c: Cache, r: RequestId, step: Step): Cache {
    Cache(step.shared, c.tables[r := step.table])
  }

  /** Only the pages of one layer of one request may change, and no page changes hands. */
  ghost predicate OnlyLayerWritten(c: Cache, ledger: Ledger, c': Cache, ledger': Ledger, r: RequestId, l: nat) {
    && |c'.shared.pool.pages| == |c.shared.pool.pages|
    && (forall p :: p in ledger ==> p in ledger' && ledger'[p] == ledger[p])
    && (forall p | p in ledger && p < |c.shared.pool.pages| && !BelongsToLayer(ledger[p], r, l) ::
          c'.shared.pool.pages[p] == c.shared.pool.pages[p])
  }

  predicate BelongsToLayer(o: Slot, r: RequestId, l: nat) {
    o.Pending? && o.request == r && o.layer == l
  }

  /** The table differs only in one layer, which grew. */
  ghost predicate OnlyLayerGrew(t: Table, t': Table, l: nat) {
    && t'.path == t.path && |t'.layers| == |t.layers| && l < |t.layers|
    && (forall m :: 0 <= m < |t.layers| && m != l ==> t'.layers[m] == t.layers[m])
    && t.layers[l].pages <= t'.layers[l].pages && t.layers[l].count <= t'.layers[l].count
  }

  lemma LayerView(c: Cache, r: RequestId, l: nat)
    requires CacheOk(c) && r in c.tables && l < c.shared.layerCount
    ensures |c.tables[r].layers| == c.shared.layerCount
    ensures ViewDefined(c.shared.pool, c.tables[r].layers[l])
  {
    assert LayerOk(c.shared, c.tables[r], l);
  }

  /** The slot that the page at one position of a table belongs to. */
  lemma PageInLedger(c: Cache, ledger: Ledger, r: RequestId, l: nat, i: nat)
    requires Consistent(c, ledger) && r in c.tables && l < c.shared.layerCount && i < |c.tables[r].layers[l].pages|
    ensures var p := c.tables[r].layers[l].pages[i];
            p in ledger && p < |c.shared.pool.states| && ledger[p] == OccurrenceSlot(c, r, l, i)
  {
    assert PageAt(c, OccurrenceSlot(c, r, l, i)) == c.tables[r].layers[l].pages[i];
  }

  /** Writing into one layer's own pages leaves every other view as it was. */
  lemma OtherViewsKept(c: Cache, ledger: Ledger, c': Cache, ledger': Ledger, r: RequestId, l: nat, x: RequestId, m: nat)
    requires Consistent(c, ledger) && Consistent(c', ledger') && OnlyLayerWritten(c, ledger, c', ledger', r, l)
    requires c'.shared.pool.pageTokens == c.shared.pool.pageTokens && c'.shared.layerCount == c.shared.layerCount
    requires x in c.tables && x in c'.tables && m < c.shared.layerCount && (x != r || m != l)
    requires c.tables[x].layers[m] == c'.tables[x].layers[m]
    ensures ViewDefined(c.shared.pool, c.tables[x].layers[m]) && ViewDefined(c'.shared.pool, c.tables[x].layers[m])
    ensures View(c'.shared.pool, c'.tables[x].layers[m]) == View(c.shared.pool, c.tables[x].layers[m])
  {
    hide PrefixClosed, StampsOk, NodesShaped, IsSlot;
    LayerView(c, x, m);
    LayerView(c', x, m);
    var layer := c.tables[x].layers[m];
    forall i | 0 <= i < layer.count
      ensures EntryAt(c'.shared.pool, layer, i) == EntryAt(c.shared.pool, layer, i)
    {
      PageOfIndex(i, layer.count, c.shared.pool.pageTokens);
      PageInLedger(c, ledger, x, m, Div(i, c.shared.pool.pageTokens));
    }
  }

  /** Where the next chunk of a layer goes. */
  ghost function ChunkPage(c: Cache, r: RequestId, l: nat): PageId
    requires CacheOk(c) && r in c.tables && l < c.shared.layerCount
    requires Mod(c.tables[r].layers[l].count, c.shared.pool.pageTokens) == 0 ==> c.shared.pool.free != []
  {
    var layer := c.tables[r].layers[l];
    assert LayerOk(c.shared, c.tables[r], l);
    CeilDivForm(layer.count, c.shared.pool.pageTokens);
    if Mod(layer.count, c.shared.pool.pageTokens) == 0 then Last(c.shared.pool.free) else Last(layer.pages)
  }

  /** The page a chunk is written to was free or was already the writable last page of the layer. */
  lemma ChunkPageWritable(c: Cache, ledger: Ledger, r: RequestId, l: nat)
    requires Consistent(c, ledger) && r in c.tables && l < c.shared.layerCount
    requires Mod(c.tables[r].layers[l].count, c.shared.pool.pageTokens) == 0 ==> c.shared.pool.free != []
    ensures var id := ChunkPage(c, r, l);
            var layer := c.tables[r].layers[l];
            && id < |c.shared.pool.states|
            && if Mod(layer.count, c.shared.pool.pageTokens) == 0 then
                 id !in ledger && c.shared.pool.states[id] == Unallocated
               else
                 && layer.pages != [] && |c.tables[r].path| <= |layer.pages| - 1
                 && id in ledger && ledger[id] == Pending(r, l, |layer.pages| - 1) && c.shared.pool.states[id] == PendingWrite
  {
    hide PrefixClosed, StampsOk, NodesShaped, IsSlot;
    var layer := c.tables[r].layers[l];
    assert LayerOk(c.shared, c.tables[r], l);
    CeilDivForm(layer.count, c.shared.pool.pageTokens);
    if Mod(layer.count, c.shared.pool.pageTokens) == 0 {
      assert Last(c.shared.pool.free) in c.shared.pool.free;
      var id := Last(c.shared.pool.free);
      assert id in ledger ==> StateOf(c.tables, ledger[id]) != Unallocated;
    } else {
      PageInLedger(c, ledger, r, l, |layer.pages| - 1);
    }
  }

  /** The state after one chunk, described without the code's branches. */
  ghost predicate ChunkWritten(c: Cache, c': Cache, r: RequestId, l: nat, id: PageId, written: seq<KvEntry>)
    requires CacheOk(c) && r in c.tables && l < c.shared.layerCount
  {
    var layer := c.tables[r].layers[l];
    var size := c.shared.pool.pageTokens;
    var offset := Mod(layer.count, size);
    var pool, pool' := c.shared.pool, c'.shared.pool;
    && id < |pool.states|
    && c'.shared == c.shared.(pool := pool')
    && pool' == pool.(free := pool'.free, states := pool.states[id := PendingWrite], pages := pool'.pages)
    && offset + |written| <= size
    && pool'.pages == pool.pages[id := pool.pages[id][..offset] + written + pool.pages[id][offset + |written|..]]
    && (if offset == 0 then pool.free != [] && id == Last(pool.free) && pool'.free == pool.free[..|pool.free| - 1] else pool'.free == pool.free)
    && c'.tables == c.tables[r := c.tables[r].(layers := c.tables[r].layers[l :=
         LayerTable(if offset == 0 then layer.pages + [id] else layer.pages, layer.count + |written|)])]
  }

  lemma AppendChunkWrites(c: Cache, ledger: Ledger, r: RequestId, l: nat, values: seq<KvEntry>)
    requires Consistent(c, ledger) && r in c.tables && l < c.shared.layerCount && values != []
    requires Mod(c.tables[r].layers[l].count, c.shared.pool.pageTokens) == 0 ==> c.shared.pool.free != []
    ensures LayerInRange(c.shared, c.tables[r], l)
    ensures var one := AppendChunk(c.shared, c.tables[r], l, values);
            && one.result == Ok(ChunkLength(c.shared.pool.pageTokens, c.tables[r].layers[l].count, |values|))
            && ChunkWritten(c, Applied(c, r, one), r, l, ChunkPage(c, r, l), values[..one.result.value])
  {
    hide CacheOk, LedgerOk, LayerInRange, Div, Mod, CeilDiv, AppendChunk, ChunkPage;
    LayerReady(c, r, l);
    ChunkPageWritable(c, ledger, r, l);
    ChunkPageIs(c, r, l);
    OneChunk(c.shared, c.tables[r], l, values);
  }

  lemma LayerReady(c: Cache, r: RequestId, l: nat)
    requires CacheOk(c) && r in c.tables && l < c.shared.layerCount
    ensures LayerInRange(c.shared, c.tables[r], l) && Shaped(c.shared.pool) && l < |c.tables[r].layers|
  {
    LayerView(c, r, l);
  }

  lemma ChunkPageIs(c: Cache, r: RequestId, l: nat)
    requires CacheOk(c) && r in c.tables && l < c.shared.layerCount && l < |c.tables[r].layers| && c.shared.pool.pageTokens > 0
    requires Mod(c.tables[r].layers[l].count, c.shared.pool.pageTokens) == 0 ==> c.shared.pool.free != []
    requires Mod(c.tables[r].layers[l].count, c.shared.pool.pageTokens) != 0 ==> c.tables[r].layers[l].pages != []
    ensures ChunkPage(c, r, l) == if Mod(c.tables[r].layers[l].count, c.shared.pool.pageTokens) == 0 then Last(c.shared.pool.free)
                                  else Last(c.tables[r].layers[l].pages)
  {
    hide CacheOk, Div, Mod, CeilDiv;
  }

  /** The append loop's body on a layer whose target page is writable. */
  lemma OneChunk(s: Shared, t: Table, l: nat, values: seq<KvEntry>)
    requires LayerInRange(s, t, l) && values != []
    requires var layer := t.layers[l];
             if Mod(layer.count, s.pool.pageTokens) == 0 then s.pool.free != []
             else layer.pages != [] && s.pool.states[layer.pages[|layer.pages| - 1]] == PendingWrite
    ensures var one := AppendChunk(s, t, l, values);
            var layer := t.layers[l];
            var offset := Mod(layer.count, s.pool.pageTokens);
            var n := ChunkLength(s.pool.pageTokens, layer.count, |values|);
            var id := if offset == 0 then Last(s.pool.free) else Last(layer.pages);
            && one.result == Ok(n) && id < |s.pool.states|
            && one.shared == s.(pool := one.shared.pool)
            && one.shared.pool == Pool(s.pool.pageTokens, s.pool.states[id := PendingWrite],
                 if offset == 0 then s.pool.free[..|s.pool.free| - 1] else s.pool.free,
                 s.pool.pages[id := s.pool.pages[id][..offset] + values[..n] + s.pool.pages[id][offset + n..]])
            && one.table == t.(layers := t.layers[l :=
                 LayerTable(if offset == 0 then layer.pages + [id] else layer.pages, layer.count + n)])
  {
    var layer := t.layers[l];
    var n := ChunkLength(s.pool.pageTokens, layer.count, |values|);
    if Mod(layer.count, s.pool.pageTokens) == 0 {
      var id := Last(s.pool.free);
      var t1 := PushPage(t, l, id);
      assert Last(t1.layers[l].pages) == id;
      assert AddCount(t1, l, n).layers == t.layers[l := LayerTable(layer.pages + [id], layer.count + n)];
    } else {
      var id := Last(layer.pages);
      assert s.pool.states == s.pool.states[id := PendingWrite];
      assert AddCount(t, l, n).layers == t.layers[l := LayerTable(layer.pages, layer.count + n)];
    }
  }

  ghost function ChunkSlot(c: Cache, r: RequestId, l: nat): Slot
    requires CacheOk(c) && r in c.tables && l < c.shared.layerCount
  {
    Pending(r, l, Div(c.tables[r].layers[l].count, c.shared.pool.pageTokens))
  }

  /** What every lemma about one chunk assumes. */
  ghost predicate ChunkStepOf(c: Cache, ledger: Ledger, c': Cache, r: RequestId, l: nat, id: PageId, written: seq<KvEntry>) {
    && Consistent(c, ledger) && r in c.tables && l < c.shared.layerCount && written != []
    && (Mod(c.tables[r].layers[l].count, c.shared.pool.pageTokens) == 0 ==> c.shared.pool.free != [])
    && ChunkWritten(c, c', r, l, id, written)
    && id == ChunkPage(c, r, l)
  }

  lemma ChunkPool(c: Cache, ledger: Ledger, c': Cache, r: RequestId, l: nat, id: PageId, written: seq<KvEntry>)
    requires ChunkStepOf(c, ledger, c', r, l, id, written)
    ensures SharedOk(c'.shared)
    ensures |c'.shared.pool.states| == |c.shared.pool.states| && c'.shared.pool.pageTokens == c.shared.pool.pageTokens
  {
    hide PrefixClosed, StampsOk, NodesShaped, IsSlot;
    ChunkPageWritable(c, ledger, r, l);
    hide LedgerOk, TableOk;
    AllocateKeepsPool(c.shared.pool);
    var pool, pool' := c.shared.pool, c'.shared.pool;
    if Mod(c.tables[r].layers[l].count, pool.pageTokens) == 0 {
      assert PoolOk(Allocate(pool).value.0) && pool' == Allocate(pool).value.0.(pages := pool'.pages);
    } else {
      assert pool.states[id := PendingWrite] == pool.states;
      assert pool' == pool.(pages := pool'.pages);
    }
  }

  lemma ChunkLayerOk(c: Cache, ledger: Ledger, c': Cache, r: RequestId, l: nat, id: PageId, written: seq<KvEntry>)
    requires ChunkStepOf(c, ledger, c', r, l, id, written) && SharedOk(c'.shared)
    requires |c'.shared.pool.states| == |c.shared.pool.states|
    ensures TableOk(c'.shared, c'.tables[r])
  {
    hide PrefixClosed, StampsOk, NodesShaped, IsSlot;
    var t, t' := c.tables[r], c'.tables[r];
    assert TableOk(c.shared, t) && LayerOk(c.shared, t, l);
    hide LedgerOk, SharedOk, CacheOk;
    ChunkGrowth(t.layers[l].count, |written|, c.shared.pool.pageTokens);
    CeilDivForm(t.layers[l].count, c.shared.pool.pageTokens);
    forall m | 0 <= m < c'.shared.layerCount
      ensures LayerOk(c'.shared, t', m)
    {
      assert LayerOk(c.shared, t, m);
    }
  }

  lemma ChunkKeepsCacheOk(c: Cache, ledger: Ledger, c': Cache, r: RequestId, l: nat, id: PageId, written: seq<KvEntry>)
    requires ChunkStepOf(c, ledger, c', r, l, id, written)
    ensures CacheOk(c')
  {
    ChunkPool(c, ledger, c', r, l, id, written);
    ChunkLayerOk(c, ledger, c', r, l, id, written);
    assert c.tables.Keys == c'.tables.Keys;
    forall x | x in c'.tables
      ensures TableOk(c'.shared, c'.tables[x])
    {
      if x != r { TableOkTransfer(c.shared, c'.shared, c.tables[x]); }
    }
  }

  /** A chunk adds at most one slot, the one it writes to. */
  lemma ChunkSlots(c: Cache, ledger: Ledger, c': Cache, r: RequestId, l: nat, id: PageId, written: seq<KvEntry>, o: Slot)
    requires ChunkStepOf(c, ledger, c', r, l, id, written)
    ensures IsSlot(c', ChunkSlot(c, r, l)) && PageAt(c', ChunkSlot(c, r, l)) == id
    ensures o != ChunkSlot(c, r, l) ==> (IsSlot(c', o) <==> IsSlot(c, o))
    ensures o != ChunkSlot(c, r, l) && IsSlot(c, o) ==> PageAt(c', o) == PageAt(c, o)
  {
    hide PrefixClosed, StampsOk, NodesShaped, LedgerOk, FreeListExact;
    ChunkPageWritable(c, ledger, r, l);
    var layer := c.tables[r].layers[l];
    assert LayerOk(c.shared, c.tables[r], l);
    CeilDivForm(layer.count, c.shared.pool.pageTokens);
    hide Div, Mod, CeilDiv, Consistent, TableOk, LayerOk;
  }

  lemma UsersOfSamePaths(tables: map<RequestId, Table>, tables': map<RequestId, Table>, q: Path)
    requires tables.Keys == tables'.Keys && forall r :: r in tables ==> tables'[r].path == tables[r].path
    ensures Users(tables', q) == Users(tables, q)
  {
  }

  /** The few facts about a chunk that the ledger depends on. */
  lemma ChunkFacts(c: Cache, ledger: Ledger, c': Cache, r: RequestId, l: nat, id: PageId, written: seq<KvEntry>)
    requires ChunkStepOf(c, ledger, c', r, l, id, written)
    ensures LedgerOk(c, ledger) && id < |c.shared.pool.states|
    ensures id in ledger ==> ledger[id] == ChunkSlot(c, r, l)
    ensures c'.shared.pool.states == c.shared.pool.states[id := PendingWrite]
    ensures |c'.shared.pool.pages| == |c.shared.pool.pages|
    ensures forall p :: 0 <= p < |c.shared.pool.pages| && p != id ==> c'.shared.pool.pages[p] == c.shared.pool.pages[p]
    ensures forall q :: Users(c'.tables, q) == Users(c.tables, q)
  {
    hide PrefixClosed, StampsOk, NodesShaped, IsSlot;
    ChunkPageWritable(c, ledger, r, l);
    assert LayerOk(c.shared, c.tables[r], l);
    CeilDivForm(c.tables[r].layers[l].count, c.shared.pool.pageTokens);
    hide Div, Mod, CeilDiv, CacheOk;
    forall q { UsersOfSamePaths(c.tables, c'.tables, q); }
  }

  lemma ChunkLedgerSlots(c: Cache, ledger: Ledger, c': Cache, r: RequestId, l: nat, id: PageId, written: seq<KvEntry>, o: Slot)
    requires ChunkStepOf(c, ledger, c', r, l, id, written)
    ensures SlotRecorded(c', ledger[id := ChunkSlot(c, r, l)], o)
  {
    ChunkFacts(c, ledger, c', r, l, id, written);
    ChunkSlots(c, ledger, c', r, l, id, written, o);
    hide CacheOk, IsSlot, PageAt, ChunkStepOf, ChunkSlot, Users, Consistent;
  }

  lemma ChunkLedgerPages(c: Cache, ledger: Ledger, c': Cache, r: RequestId, l: nat, id: PageId, written: seq<KvEntry>, p: PageId)
    requires ChunkStepOf(c, ledger, c', r, l, id, written)
    ensures PageAccounted(c', ledger[id := ChunkSlot(c, r, l)], p)
  {
    ChunkFacts(c, ledger, c', r, l, id, written);
    var ledger' := ledger[id := ChunkSlot(c, r, l)];
    if p in ledger' { ChunkSlots(c, ledger, c', r, l, id, written, ledger'[p]); }
    hide CacheOk, IsSlot, PageAt, ChunkStepOf, Users, Consistent;
  }

  /** One chunk keeps the cache consistent: its page is, or becomes, the layer's last pending page. */
  lemma ChunkKeepsConsistent(c: Cache, ledger: Ledger, c': Cache, r: RequestId, l: nat, id: PageId, written: seq<KvEntry>)
      returns (ledger': Ledger)
    requires ChunkStepOf(c, ledger, c', r, l, id, written)
    ensures Consistent(c', ledger') && OnlyLayerWritten(c, ledger, c', ledger', r, l)
    ensures id in ledger' && ledger'[id] == ChunkSlot(c, r, l)
  {
    hide PrefixClosed, StampsOk, NodesShaped, Div, Mod, CeilDiv, Users;
    ChunkKeepsCacheOk(c, ledger, c', r, l, id, written);
    ledger' := ledger[id := ChunkSlot(c, r, l)];
    assert OnlyLayerWritten(c, ledger, c', ledger', r, l) by {
      ChunkFacts(c, ledger, c', r, l, id, written);
      hide LedgerOk, CacheOk, ChunkStepOf, IsSlot, PageAt, Users, Consistent;
    }
    hide CacheOk, LedgerOk, ChunkStepOf, OnlyLayerWritten, SlotRecorded, PageAccounted;
    forall o
      ensures SlotRecorded(c', ledger', o)
    {
      ChunkLedgerSlots(c, ledger, c', r, l, id, written, o);
    }
    forall p: PageId
      ensures PageAccounted(c', ledger', p)
    {
      ChunkLedgerPages(c, ledger, c', r, l, id, written, p);
    }
    LedgerFromParts(c', ledger');
  }

  /** Writing after a layer's last token extends its view. */
  lemma WriteExtendsView(p: Pool, p': Pool, layer: LayerTable, layer': LayerTable, id: PageId, written: seq<KvEntry>)
    requires ViewDefined(p, layer) && ViewDefined(p', layer') && p'.pageTokens == p.pageTokens
    requires id < |p.pages| && layer'.count == layer.count + |written|
    requires var k, offset := Div(layer.count, p.pageTokens), Mod(layer.count, p.pageTokens);
             && offset + |written| <= p.pageTokens
             && p'.pages == p.pages[id := p.pages[id][..offset] + written + p.pages[id][offset + |written|..]]
             && k < |layer'.pages| && layer'.pages[k] == id && layer.pages <= layer'.pages
             && forall j :: 0 <= j < k && j < |layer.pages| ==> layer.pages[j] != id
    ensures View(p', layer') == View(p, layer) + written
  {
    hide Div, Mod, CeilDiv, ViewDefined, EntryAt;
    forall i | 0 <= i < layer'.count
      ensures EntryAt(p', layer', i) == (View(p, layer) + written)[i]
    {
      WrittenEntry(p, p', layer, layer', id, written, i);
    }
  }

  lemma WrittenEntry(p: Pool, p': Pool, layer: LayerTable, layer': LayerTable, id: PageId, written: seq<KvEntry>, i: nat)
    requires ViewDefined(p, layer) && ViewDefined(p', layer') && p'.pageTokens == p.pageTokens
    requires id < |p.pages| && layer'.count == layer.count + |written| && i < layer'.count
    requires var k, offset := Div(layer.count, p.pageTokens), Mod(layer.count, p.pageTokens);
             && offset + |written| <= p.pageTokens
             && p'.pages == p.pages[id := p.pages[id][..offset] + written + p.pages[id][offset + |written|..]]
             && k < |layer'.pages| && layer'.pages[k] == id && layer.pages <= layer'.pages
             && forall j :: 0 <= j < k && j < |layer.pages| ==> layer.pages[j] != id
    ensures EntryAt(p', layer', i) == if i < layer.count then EntryAt(p, layer, i) else written[i - layer.count]
  {
    hide Div, Mod, CeilDiv;
    var size := p.pageTokens;
    var k, offset := Div(layer.count, size), Mod(layer.count, size);
    PageOfIndex(i, layer'.count, size);
    if i < layer.count {
      PageOfIndex(i, layer.count, size);
      assert layer'.pages[Div(i, size)] == layer.pages[Div(i, size)];
    } else {
      DivMod(layer.count, size);
      DivUnique(i, size, k, offset + (i - layer.count));
    }
  }

  lemma ChunkExtendsView(c: Cache, ledger: Ledger, c': Cache, ledger': Ledger, r: RequestId, l: nat, id: PageId,
                         written: seq<KvEntry>)
    requires ChunkStepOf(c, ledger, c', r, l, id, written)
    requires Consistent(c', ledger') && id in ledger' && ledger'[id] == ChunkSlot(c, r, l)
    ensures ViewDefined(c.shared.pool, c.tables[r].layers[l]) && ViewDefined(c'.shared.pool, c'.tables[r].layers[l])
    ensures View(c'.shared.pool, c'.tables[r].layers[l]) == View(c.shared.pool, c.tables[r].layers[l]) + written
  {
    hide PrefixClosed, StampsOk, NodesShaped, IsSlot;
    LayerView(c, r, l);
    LayerView(c', r, l);
    var layer, layer' := c.tables[r].layers[l], c'.tables[r].layers[l];
    ChunkPageWritable(c, ledger, r, l);
    assert LayerOk(c.shared, c.tables[r], l) && LayerOk(c'.shared, c'.tables[r], l);
    CeilDivForm(layer.count, c.shared.pool.pageTokens);
    hide Div, Mod, CeilDiv, CacheOk, Consistent, TableOk, LayerOk, View;
    forall j | 0 <= j < Div(layer.count, c.shared.pool.pageTokens) && j < |layer.pages|
      ensures layer.pages[j] != id
    {
      PageInLedger(c', ledger', r, l, j);
    }
    WriteExtendsView(c.shared.pool, c'.shared.pool, layer, layer', id, written);
  }

  lemma ChunkFreePages(c: Cache, c': Cache, r: RequestId, l: nat, id: PageId, written: seq<KvEntry>, total: nat)
    requires CacheOk(c) && r in c.tables && l < |c.tables[r].layers| && l < c.shared.layerCount
    requires ChunkWritten(c, c', r, l, id, written) && 0 < |written| <= total
    requires var count, size := c.tables[r].layers[l].count, c.shared.pool.pageTokens;
             CeilDiv(count + total, size) - CeilDiv(count, size) <= |c.shared.pool.free|
    ensures l < |c'.tables[r].layers| && c'.tables[r].layers[l].count == c.tables[r].layers[l].count + |written|
    ensures c'.shared.pool.pageTokens == c.shared.pool.pageTokens
    ensures var count, size := c'.tables[r].layers[l].count, c.shared.pool.pageTokens;
            CeilDiv(count + (total - |written|), size) - CeilDiv(count, size) <= |c'.shared.pool.free|
  {
    hide PrefixClosed, StampsOk, TableOk, NodesShaped, FreeListExact;
    ChunkGrowth(c.tables[r].layers[l].count, |written|, c.shared.pool.pageTokens);
  }

  lemma NeedsFreePage(count: nat, total: nat, size: nat)
    requires size > 0 && total > 0
    ensures Mod(count, size) == 0 ==> CeilDiv(count + total, size) > CeilDiv(count, size)
  {
    if Mod(count, size) == 0 {
      ChunkGrowth(count, 1, size);
      CeilDivMonotone(count + 1, count + total, size);
    }
  }

  /** What a completed append did. */
  ghost predicate Appended(c: Cache, ledger: Ledger, c': Cache, ledger': Ledger, r: RequestId, l: nat, values: seq<KvEntry>) {
    && r in c.tables && r in c'.tables && c'.tables == c.tables[r := c'.tables[r]]
    && c'.shared == c.shared.(pool := c'.shared.pool)
    && |c'.shared.pool.states| == |c.shared.pool.states| && c'.shared.pool.pageTokens == c.shared.pool.pageTokens
    && Consistent(c', ledger') && OnlyLayerWritten(c, ledger, c', ledger', r, l)
    && OnlyLayerGrew(c.tables[r], c'.tables[r], l)
    && ViewDefined(c.shared.pool, c.tables[r].layers[l]) && ViewDefined(c'.shared.pool, c'.tables[r].layers[l])
    && View(c'.shared.pool, c'.tables[r].layers[l]) == View(c.shared.pool, c.tables[r].layers[l]) + values
  }

  lemma OneChunkAppended(c: Cache, ledger: Ledger, r: RequestId, l: nat, values: seq<KvEntry>) returns (ledger': Ledger)
    requires Consistent(c, ledger) && r in c.tables && l < c.shared.layerCount && values != []
    requires Mod(c.tables[r].layers[l].count, c.shared.pool.pageTokens) == 0 ==> c.shared.pool.free != []
    ensures LayerInRange(c.shared, c.tables[r], l)
    ensures var one := AppendChunk(c.shared, c.tables[r], l, values);
            && one.result.Ok? && 0 < one.result.value <= |values|
            && Appended(c, ledger, Applied(c, r, one), ledger', r, l, values[..one.result.value])
            && ChunkWritten(c, Applied(c, r, one), r, l, ChunkPage(c, r, l), values[..one.result.value])
  {
    hide CacheOk, LedgerOk, View, ViewDefined;
    AppendChunkWrites(c, ledger, r, l, values);
    var one := AppendChunk(c.shared, c.tables[r], l, values);
    var n := one.result.value;
    var id, c' := ChunkPage(c, r, l), Applied(c, r, one);
    hide AppendChunk, Div, Mod, CeilDiv, PrefixClosed, StampsOk, TableOk, NodesShaped, FreeListExact;
    ledger' := ChunkKeepsConsistent(c, ledger, c', r, l, id, values[..n]);
    ChunkExtendsView(c, ledger, c', ledger', r, l, id, values[..n]);
    hide Consistent, CacheOk, View, OnlyLayerWritten, ViewDefined, ChunkPage;
  }

  lemma AppendedTwice(c: Cache, ledger: Ledger, c1: Cache, ledger1: Ledger, c2: Cache, ledger2: Ledger, r: RequestId, l: nat,
                      a: seq<KvEntry>, b: seq<KvEntry>)
    requires Appended(c, ledger, c1, ledger1, r, l, a) && Appended(c1, ledger1, c2, ledger2, r, l, b)
    ensures Appended(c, ledger, c2, ledger2, r, l, a + b)
  {
    hide Consistent, View, ViewDefined;
    var v := View(c.shared.pool, c.tables[r].layers[l]);
    assert (v + a) + b == v + (a + b);
    assert c2.tables == c.tables[r := c2.tables[r]];
  }

  /** The append loop writes everything when the free pages cover the growth. */
  lemma {:induction false} AppendChunksOk(c: Cache, ledger: Ledger, r: RequestId, l: nat, values: seq<KvEntry>)
      returns (ledger': Ledger)
    requires Consistent(c, ledger) && r in c.tables && l < c.shared.layerCount && l < |c.tables[r].layers|
    requires var count, size := c.tables[r].layers[l].count, c.shared.pool.pageTokens;
             size > 0 && CeilDiv(count + |values|, size) - CeilDiv(count, size) <= |c.shared.pool.free|
    ensures LayerInRange(c.shared, c.tables[r], l)
    ensures var step := AppendChunks(c.shared, c.tables[r], l, values);
            step.result == Ok(c.tables[r].layers[l].count + |values|) &&
            Appended(c, ledger, Applied(c, r, step), ledger', r, l, values)
    decreases |values|
  {
    hide AppendChunk, Appended, ChunkWritten, Div, Mod, CeilDiv, PrefixClosed, StampsOk, TableOk, NodesShaped, FreeListExact, LedgerOk;
    LayerView(c, r, l);
    if values == [] {
      ledger' := ledger;
      NothingAppended(c, ledger, r, l);
    } else {
      NeedsFreePage(c.tables[r].layers[l].count, |values|, c.shared.pool.pageTokens);
      var ledger1 := OneChunkAppended(c, ledger, r, l, values);
      var one := AppendChunk(c.shared, c.tables[r], l, values);
      var n := one.result.value;
      var c1 := Applied(c, r, one);
      ChunkFreePages(c, c1, r, l, ChunkPage(c, r, l), values[..n], |values|);
      AppendedFacts(c, ledger, c1, ledger1, r, l, values[..n]);
      hide CacheOk, AppendChunks, ChunkPage;
      ledger' := AppendChunksOk(c1, ledger1, r, l, values[n..]);
      ChunkThenRest(c, ledger, ledger1, ledger', r, l, values);
    }
  }

  lemma AppendedFacts(c: Cache, ledger: Ledger, c': Cache, ledger': Ledger, r: RequestId, l: nat, values: seq<KvEntry>)
    requires Appended(c, ledger, c', ledger', r, l, values)
    ensures Consistent(c', ledger') && r in c'.tables && l < |c'.tables[r].layers|
    ensures c'.shared.layerCount == c.shared.layerCount
  {
    hide Consistent, View, ViewDefined;
  }

  lemma ChunkThenRest(c: Cache, ledger: Ledger, ledger1: Ledger, ledger2: Ledger, r: RequestId, l: nat, values: seq<KvEntry>)
    requires r in c.tables && LayerInRange(c.shared, c.tables[r], l) && values != []
    requires var one := AppendChunk(c.shared, c.tables[r], l, values);
             && one.result.Ok? && Appended(c, ledger, Applied(c, r, one), ledger1, r, l, values[..one.result.value])
             && var rest := AppendChunks(one.shared, one.table, l, values[one.result.value..]);
                Appended(Applied(c, r, one), ledger1, Applied(Applied(c, r, one), r, rest), ledger2, r, l, values[one.result.value..])
    ensures var one := AppendChunk(c.shared, c.tables[r], l, values);
            AppendChunks(c.shared, c.tables[r], l, values) == AppendChunks(one.shared, one.table, l, values[one.result.value..])
    ensures Appended(c, ledger, Applied(c, r, AppendChunks(c.shared, c.tables[r], l, values)), ledger2, r, l, values)
  {
    hide AppendChunk, Appended, Shaped, LayerInRange;
    var one := AppendChunk(c.shared, c.tables[r], l, values);
    var n := one.result.value;
    var c1 := Applied(c, r, one);
    var rest := AppendChunks(one.shared, one.table, l, values[n..]);
    assert AppendChunks(c.shared, c.tables[r], l, values) == rest;
    assert Applied(c1, r, rest) == Applied(c, r, rest);
    hide Appended, AppendChunks, AppendChunk;
    AppendedTwice(c, ledger, c1, ledger1, Applied(c, r, rest), ledger2, r, l, values[..n], values[n..]);
    assert values[..n] + values[n..] == values;
  }

  lemma NothingAppended(c: Cache, ledger: Ledger, r: RequestId, l: nat)
    requires Consistent(c, ledger) && r in c.tables && l < c.shared.layerCount && l < |c.tables[r].layers|
    ensures Appended(c, ledger, Applied(c, r, Step(c.shared, c.tables[r], Ok(c.tables[r].layers[l].count))), ledger, r, l, [])
  {
    LayerView(c, r, l);
    hide LedgerOk, CacheOk, View;
    assert c.tables[r := c.tables[r]] == c.tables;
    assert View(c.shared.pool, c.tables[r].layers[l]) + [] == View(c.shared.pool, c.tables[r].layers[l]);
  }

  /** Every layer of every request other than layer l of request r shows the same entries as before. */
  ghost predicate OtherViewsSame(c: Cache, c': Cache, r: RequestId, l: nat)
    requires CacheOk(c) && CacheOk(c')
  {
    forall x, m :: x != r || m != l ==> ViewKept(c, c', x, m)
  }

  /** If request x has a layer m, it still has it, with the same entries. */
  ghost predicate ViewKept(c: Cache, c': Cache, x: RequestId, m: nat)
    requires CacheOk(c) && CacheOk(c')
  {
    x in c.tables && m < c.shared.layerCount ==>
      && x in c'.tables && m < c'.shared.layerCount
      && (LayerView(c, x, m);
          LayerView(c', x, m);
          View(c'.shared.pool, c'.tables[x].layers[m]) == View(c.shared.pool, c.tables[x].layers[m]))
  }

  lemma AppendedIsolated(c: Cache, ledger: Ledger, c': Cache, ledger': Ledger, r: RequestId, l: nat, values: seq<KvEntry>)
    requires Consistent(c, ledger) && Appended(c, ledger, c', ledger', r, l, values)
    ensures OtherViewsSame(c, c', r, l)
  {
    hide LedgerOk, Div, Mod, CeilDiv, PrefixClosed, StampsOk, NodesShaped, FreeListExact, View, ViewDefined;
    forall x, m: nat | x != r || m != l
      ensures ViewKept(c, c', x, m)
    {
      if x in c.tables && m < c.shared.layerCount {
        LayerView(c, x, m);
        OtherViewsKept(c, ledger, c', ledger', r, l, x, m);
      }
    }
  }

  /** Changing only which pages are free leaves every view alone. */
  lemma SamePagesSameViews(c: Cache, c': Cache)
    requires CacheOk(c) && CacheOk(c') && c'.tables == c.tables && c'.shared.pool.pages == c.shared.pool.pages
    requires c'.shared.layerCount == c.shared.layerCount && c'.shared.pool.pageTokens == c.shared.pool.pageTokens
    ensures forall x, m: nat :: ViewKept(c, c', x, m)
  {
    hide Div, Mod, CeilDiv, PrefixClosed, StampsOk, NodesShaped, FreeListExact;
    forall x, m: nat
      ensures ViewKept(c, c', x, m)
    {
      if x in c.tables && m < c.shared.layerCount {
        LayerView(c, x, m);
        LayerView(c', x, m);
        var layer := c.tables[x].layers[m];
        assert forall i :: 0 <= i < layer.count ==> EntryAt(c'.shared.pool, layer, i) == EntryAt(c.shared.pool, layer, i);
      }
    }
  }

  lemma OtherViewsCompose(c: Cache, c1: Cache, c': Cache, r: RequestId, l: nat)
    requires CacheOk(c) && CacheOk(c1) && CacheOk(c') && c1.shared.layerCount == c.shared.layerCount
    requires OtherViewsSame(c, c1, r, l) && OtherViewsSame(c1, c', r, l)
    ensures OtherViewsSame(c, c', r, l)
  {
    hide SharedOk, TableOk, View;
    forall x, m: nat | x != r || m != l
      ensures ViewKept(c, c', x, m)
    {
      assert ViewKept(c, c1, x, m) && ViewKept(c1, c', x, m);
    }
  }

  /** The index lost no content: every block it has was there with the same pages and entries. */
  ghost predicate IndexKept(c: Cache, c': Cache) {
    && |c'.shared.pool.pages| == |c.shared.pool.pages|
    && (forall q :: q in c'.shared.trie ==> q in c.shared.trie && BlockKept(c, c', q))
  }

  ghost predicate BlockKept(c: Cache, c': Cache, q: Path)
    requires q in c.shared.trie && q in c'.shared.trie
  {
    && c'.shared.trie[q].pages == c.shared.trie[q].pages
    && forall l :: 0 <= l < |c.shared.trie[q].pages| ==>
         var p := c.shared.trie[q].pages[l];
         p < |c.shared.pool.pages| && p < |c'.shared.pool.pages| && c'.shared.pool.pages[p] == c.shared.pool.pages[p]
  }

  lemma AppendedKeepsIndex(c: Cache, ledger: Ledger, c': Cache, ledger': Ledger, r: RequestId, l: nat, values: seq<KvEntry>)
    requires Consistent(c, ledger) && Appended(c, ledger, c', ledger', r, l, values)
    ensures IndexKept(c, c')
  {
    hide PrefixClosed, StampsOk, FreeListExact, TableOk, View, ViewDefined;
    forall q | q in c'.shared.trie
      ensures q in c.shared.trie && BlockKept(c, c', q)
    {
      forall m | 0 <= m < |c.shared.trie[q].pages|
        ensures var p := c.shared.trie[q].pages[m];
                p < |c.shared.pool.pages| && c'.shared.pool.pages[p] == c.shared.pool.pages[p]
      {
        assert IsSlot(c, Indexed(q, m)) && PageAt(c, Indexed(q, m)) == c.shared.trie[q].pages[m];
      }
    }
  }

  lemma SubIndexKept(c: Cache, ledger: Ledger, c1: Cache)
    requires Consistent(c, ledger) && c1.shared.pool.pages == c.shared.pool.pages
    requires forall q :: q in c1.shared.trie ==> q in c.shared.trie && c1.shared.trie[q].pages == c.shared.trie[q].pages
    ensures IndexKept(c, c1)
  {
    hide PrefixClosed, StampsOk, FreeListExact, TableOk;
    forall q | q in c1.shared.trie
      ensures q in c.shared.trie && BlockKept(c, c1, q)
    {
      forall m | 0 <= m < |c.shared.trie[q].pages|
        ensures c.shared.trie[q].pages[m] < |c.shared.pool.pages|
      {
        assert IsSlot(c, Indexed(q, m)) && PageAt(c, Indexed(q, m)) == c.shared.trie[q].pages[m];
      }
    }
  }

  lemma IndexKeptTwice(c: Cache, c1: Cache, c': Cache)
    requires IndexKept(c, c1) && IndexKept(c1, c')
    ensures IndexKept(c, c')
  {
    forall q | q in c'.shared.trie
      ensures q in c.shared.trie && BlockKept(c, c', q)
    {
      assert BlockKept(c, c1, q) && BlockKept(c1, c', q);
    }
  }

  ghost predicate AppendAccepted(c: Cache, r: RequestId, l: nat, start: nat, values: seq<KvEntry>)
    requires CacheOk(c) && r in c.tables
  {
    l < c.shared.layerCount && start == c.tables[r].layers[l].count && values != []
  }

  /** An accepted append succeeds exactly when the pages it needs fit beside the pages that requests
      are using, whatever the index holds. It then extends that one view and changes no other; when
      it fails it changes no view at all. The cache stays consistent either way. */
  lemma AppendExact(c: Cache, ledger: Ledger, r: RequestId, l: nat, start: nat, values: seq<KvEntry>) returns (ledger': Ledger)
    requires Consistent(c, ledger) && r in c.tables
    ensures var step := Append(c.shared, c.tables[r], l, start, values);
            var c' := Applied(c, r, step);
            && Consistent(c', ledger') && IndexKept(c, c')
            && c'.shared.layerCount == c.shared.layerCount && c'.shared.pool.pageTokens == c.shared.pool.pageTokens
            && |c'.shared.pool.states| == |c.shared.pool.states| && c'.shared.enabled == c.shared.enabled
            && (!AppendAccepted(c, r, l, start, values) ==> step.result.Err? && c' == c)
            && (AppendAccepted(c, r, l, start, values) ==>
                  && (step.result.Ok? <==>
                        RequiredPages(c.shared.pool.pageTokens, start, |values|) + |PagesInUse(c)| <= |c.shared.pool.states|)
                  && OtherViewsSame(c, c', r, l) && l < |c'.tables[r].layers| && l < |c.tables[r].layers|
                  && ViewDefined(c.shared.pool, c.tables[r].layers[l]) && ViewDefined(c'.shared.pool, c'.tables[r].layers[l])
                  && View(c'.shared.pool, c'.tables[r].layers[l]) ==
                       View(c.shared.pool, c.tables[r].layers[l]) + (if step.result.Ok? then values else [])
                  && (step.result.Ok? ==>
                        && step.result.value == start + |values| && c'.tables[r].layers[l].count == start + |values|
                        && OnlyLayerGrew(c.tables[r], c'.tables[r], l))
                  && (step.result.Err? ==> step.table == c.tables[r]))
  {
    hide LedgerOk, Div, Mod, CeilDiv, PrefixClosed, StampsOk, NodesShaped, FreeListExact, AppendChunks, EvictUntil, IndexKept;
    if !AppendAccepted(c, r, l, start, values) {
      ledger' := ledger;
      assert c.tables[r := c.tables[r]] == c.tables;
      SubIndexKept(c, ledger, c);
    } else {
      LayerView(c, r, l);
      var required := RequiredPages(c.shared.pool.pageTokens, start, |values|);
      RequiredPagesIsGrowth(c.shared.pool.pageTokens, start, |values|);
      EvictionIsComplete(c, ledger, required);
      var ledger1 := EvictUntilOk(c, ledger, required);
      var c1 := Cache(EvictUntil(c.shared, required).shared, c.tables);
      SamePagesSameViews(c, c1);
      SubIndexKept(c, ledger, c1);
      if required > |c1.shared.pool.free| {
        ledger' := ledger1;
        assert c1 == Applied(c, r, Append(c.shared, c.tables[r], l, start, values));
        assert View(c.shared.pool, c.tables[r].layers[l]) + [] == View(c.shared.pool, c.tables[r].layers[l]);
        assert ViewKept(c, c1, r, l);
      } else {
        ledger' := AppendChunksOk(c1, ledger1, r, l, values);
        var c' := Applied(c1, r, AppendChunks(c1.shared, c1.tables[r], l, values));
        AppendedIsolated(c1, ledger1, c', ledger', r, l, values);
        OtherViewsCompose(c, c1, c', r, l);
        AppendedKeepsIndex(c1, ledger1, c', ledger', r, l, values);
        IndexKeptTwice(c, c1, c');
        assert c' == Applied(c, r, Append(c.shared, c.tables[r], l, start, values));
        assert ViewKept(c, c1, r, l);
      }
    }
  }
}
