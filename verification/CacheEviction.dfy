/** Eviction and append keep the cache consistent, and an append succeeds exactly when its pages fit
    beside the pages requests are using. */
module CacheEviction {
  import opened Common
  import opened Arithmetic
  import opened CacheErrors
  import opened PagePool
  import opened PrefixTrie
  import opened PagedCacheSpec
  import opened CacheInvariant

  /** The cache after one victim was evicted. */
  ghost function Evicted(c: Cache, v: Path): Cache
    requires v in c.shared.trie
  {
    c.(shared := c.shared.(pool := ReleaseAll(c.shared.pool, c.shared.trie[v].pages).pool, trie := c.shared.trie - {v}))
  }

  lemma EvictablePages(c: Cache, ledger: Ledger, v: Path)
    requires Consistent(c, ledger) && IsEvictable(c.shared.trie, c.shared.pool, v)
    ensures Users(c.tables, v) == {} && v != []
    ensures var pages := c.shared.trie[v].pages;
            && Distinct(pages) && Releasable(c.shared.pool, pages)
            && (forall i :: 0 <= i < |pages| ==> c.shared.pool.states[pages[i]].Release() == Ok(Unallocated))
            && (forall i :: 0 <= i < |pages| ==> pages[i] in ledger && ledger[pages[i]] == Indexed(v, i))
  {
    var pages := c.shared.trie[v].pages;
    forall i | 0 <= i < |pages|
      ensures pages[i] in ledger && ledger[pages[i]] == Indexed(v, i)
    {
      assert IsSlot(c, Indexed(v, i)) && PageAt(c, Indexed(v, i)) == pages[i];
    }
    assert c.shared.pool.states[pages[0]] == WrittenNotInUse;
  }

  lemma EvictedPool(c: Cache, ledger: Ledger, v: Path)
    requires Consistent(c, ledger) && IsEvictable(c.shared.trie, c.shared.pool, v)
    ensures ReleaseAll(c.shared.pool, c.shared.trie[v].pages).error == None
    ensures var p, p' := c.shared.pool, Evicted(c, v).shared.pool;
            && PoolOk(p') && |p'.free| == |p.free| + c.shared.layerCount
            && p'.pages == p.pages && |p'.states| == |p.states| && p'.pageTokens == p.pageTokens
            && forall i :: 0 <= i < |p.states| ==>
                 p'.states[i] == if i in c.shared.trie[v].pages then Unallocated else p.states[i]
  {
    EvictablePages(c, ledger, v);
    var pages := c.shared.trie[v].pages;
    assert |pages| == c.shared.layerCount;
    hide LedgerOk, PrefixClosed, StampsOk, TableOk, NodesShaped, Shaped, FreeListExact;
    ReleaseAllEffect(c.shared.pool, pages);
    ReleaseAllFrees(c.shared.pool, pages);
    hide ReleaseAll;
    forall i | 0 <= i < |c.shared.pool.states| && i in pages
      ensures c.shared.pool.states[i].Release() == Ok(Unallocated)
    {
      var k :| 0 <= k < |pages| && pages[k] == i;
    }
  }

  lemma EvictKeepsCacheOk(c: Cache, ledger: Ledger, v: Path)
    requires Consistent(c, ledger) && IsEvictable(c.shared.trie, c.shared.pool, v)
    ensures CacheOk(Evicted(c, v))
  {
    hide Div, Mod, CeilDiv, LayerOk, FreeListExact, ReleaseAll;
    EvictedPool(c, ledger, v);
    EvictablePages(c, ledger, v);
    RemoveLeafKeepsTrie(c.shared.trie, v, c.shared.clock);
    hide LedgerOk, PrefixClosed, StampsOk;
    var c' := Evicted(c, v);
    forall r | r in c'.tables
      ensures TableOk(c'.shared, c'.tables[r])
    {
      var t := c.tables[r];
      forall k | 0 < k <= |t.path|
        ensures t.path[..k] in c'.shared.trie
      {
        assert t.path[..k] == v ==> r in Users(c.tables, v);
      }
      TableOkTransfer(c.shared, c'.shared, t);
    }
  }

  /** Evicting an eligible leaf keeps the cache consistent and frees one page per layer. */
  lemma EvictKeepsConsistent(c: Cache, ledger: Ledger, v: Path) returns (ledger': Ledger)
    requires Consistent(c, ledger) && IsEvictable(c.shared.trie, c.shared.pool, v)
    ensures Consistent(Evicted(c, v), ledger')
  {
    EvictKeepsCacheOk(c, ledger, v);
    EvictedPool(c, ledger, v);
    var c' := Evicted(c, v);
    var gone := Elements(c.shared.trie[v].pages);
    ledger' := ledger - gone;
    forall o | IsSlot(c', o)
      ensures PageAt(c', o) in ledger' && ledger'[PageAt(c', o)] == o
    {
      EvictedSlots(c, ledger, v, o);
    }
    forall p | p in ledger'
      ensures IsSlot(c', ledger'[p]) && PageAt(c', ledger'[p]) == p
    {
      EvictedSlots(c, ledger, v, ledger[p]);
    }
  }

  /** The slots that remain are those of the other blocks and of every table, with the same pages. */
  lemma EvictedSlots(c: Cache, ledger: Ledger, v: Path, o: Slot)
    requires Consistent(c, ledger) && IsEvictable(c.shared.trie, c.shared.pool, v) && CacheOk(Evicted(c, v))
    ensures IsSlot(Evicted(c, v), o) <==> IsSlot(c, o) && !(o.Indexed? && o.path == v)
    ensures IsSlot(Evicted(c, v), o) ==> PageAt(Evicted(c, v), o) == PageAt(c, o) && PageAt(c, o) !in c.shared.trie[v].pages
    ensures IsSlot(c, o) && PageAt(c, o) !in c.shared.trie[v].pages ==> IsSlot(Evicted(c, v), o)
  {
    EvictablePages(c, ledger, v);
    if IsSlot(c, o) && o.Indexed? && o.path == v {
      assert PageAt(c, o) in c.shared.trie[v].pages;
    }
  }

  /** The loop that makes room: it never fails, leaves every table and stored entry alone, and stops
      short only when no indexed block is idle. */
  lemma {:induction false} EvictUntilOk(c: Cache, ledger: Ledger, required: nat) returns (ledger': Ledger)
    requires Consistent(c, ledger)
    ensures var e := EvictUntil(c.shared, required);
            var c' := Cache(e.shared, c.tables);
            && e.error == None && Consistent(c', ledger')
            && c'.shared.pool.pages == c.shared.pool.pages && |c'.shared.pool.states| == |c.shared.pool.states|
            && c'.shared.pool.pageTokens == c.shared.pool.pageTokens && c'.shared.layerCount == c.shared.layerCount
            && c'.shared.enabled == c.shared.enabled && c'.shared.clock == c.shared.clock
            && c'.shared.trie.Keys <= c.shared.trie.Keys
            && (forall q :: q in c'.shared.trie ==> c'.shared.trie[q] == c.shared.trie[q])
            && (|c'.shared.pool.free| >= required || forall q :: q in c'.shared.trie ==> Users(c.tables, q) != {})
            && (|c.shared.pool.free| >= required ==> c' == c)
    decreases |c.shared.trie|
  {
    hide Div, Mod, CeilDiv;
    ledger' := ledger;
    if |c.shared.pool.free| < required && c.shared.enabled {
      var victim := Victim(c.shared.trie, c.shared.pool);
      if victim.Some? {
        var v := victim.value;
        EvictedPool(c, ledger, v);
        var ledger1 := EvictKeepsConsistent(c, ledger, v);
        assert Evicted(c, v).shared.trie.Keys == c.shared.trie.Keys - {v};
        ledger' := EvictUntilOk(Evicted(c, v), ledger1, required);
      } else {
        forall q | q in c.shared.trie
          ensures Users(c.tables, q) != {}
        {
          if Users(c.tables, q) == {} { IdleBlockHasEvictableLeaf(c, ledger, q); }
        }
      }
    }
  }

  lemma InUseUnchangedByEviction(c: Cache, c': Cache)
    requires CacheOk(c) && CacheOk(c') && c'.tables == c.tables && c'.shared.layerCount == c.shared.layerCount
    ensures PagesInUse(c') == PagesInUse(c)
  {
  }

  /** After the eviction loop there is room for `required` pages exactly when they fit beside the
      pages in use: every page no request holds can be reclaimed. */
  lemma EvictionIsComplete(c: Cache, ledger: Ledger, required: nat)
    requires Consistent(c, ledger)
    ensures required <= |EvictUntil(c.shared, required).shared.pool.free| <==>
            required + |PagesInUse(c)| <= |c.shared.pool.states|
  {
    var ledger' := EvictUntilOk(c, ledger, required);
    var c' := Cache(EvictUntil(c.shared, required).shared, c.tables);
    InUseUnchangedByEviction(c, c');
    FreePlusInUse(c', ledger');
  }
}
