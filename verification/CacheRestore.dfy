/** Restoring a cached prefix. */
module CacheRestore {
  import opened Common
  import opened Arithmetic
  import opened CacheErrors
  import opened PagePool
  import opened PrefixTrie
  import opened PagedCacheSpec
  import opened CacheInvariant
  import opened CacheAppend
  import opened CacheAdvance

  lemma UnpopulatedAtRoot(s: Shared, t: Table)
    requires SharedShaped(s) && TableOk(s, t) && !IsPopulated(t)
    ensures t.path == [] && forall l :: 0 <= l < |t.layers| ==> t.layers[l] == LayerTable([], 0)
  {
    assert LayerOk(s, t, 0);
  }

  /** The pages a restore retains are exactly those of the indexed blocks along the matched path. */
  lemma PathPageMembers(c: Cache, ledger: Ledger, q: Path, p: PageId)
    requires Consistent(c, ledger) && MatchIndexed(c.shared, q)
    ensures p in Flatten(PathRows(c.shared, q)) <==> p in ledger && Adopted(0, q, ledger[p])
  {
    hide StampsOk, FreeListExact, TableOk;
    var rows := PathRows(c.shared, q);
    FlattenMembers(rows, p);
    if p in ledger && Adopted(0, q, ledger[p]) { AdoptedInRows(c, ledger, q, p); }
    hide LedgerOk, CacheOk, PathRows, Adopted;
    if l, k :| 0 <= l < |rows| && 0 <= k < |rows[l]| && rows[l][k] == p {
      PathRowPage(c, ledger, q, l, k);
      PrefixAdopted(q, k, l);
    }
  }

  lemma PrefixAdopted(q: Path, k: nat, l: nat)
    requires k < |q|
    ensures Adopted(0, q, Indexed(q[..k + 1], l))
  {
  }

  lemma AdoptedInRows(c: Cache, ledger: Ledger, q: Path, p: PageId)
    requires Consistent(c, ledger) && MatchIndexed(c.shared, q) && p in ledger && Adopted(0, q, ledger[p])
    ensures var rows := PathRows(c.shared, q);
            exists l :: 0 <= l < |rows| && p in rows[l]
  {
    hide StampsOk, FreeListExact, TableOk, Users;
    var o := ledger[p];
    var rows := PathRows(c.shared, q);
    assert IsSlot(c, o) && PageAt(c, o) == p && o.path == q[..|o.path| - 1 + 1];
    assert rows[o.layer][|o.path| - 1] == p;
  }

  lemma PathRowPage(c: Cache, ledger: Ledger, q: Path, l: nat, k: nat)
    requires Consistent(c, ledger) && MatchIndexed(c.shared, q) && l < c.shared.layerCount && k < |q|
    ensures var p := PathRows(c.shared, q)[l][k];
            p in ledger && ledger[p] == Indexed(q[..k + 1], l) && p < |c.shared.pool.states|
  {
    hide StampsOk, FreeListExact, TableOk, PrefixClosed;
    var o := Indexed(q[..k + 1], l);
    assert IsSlot(c, o) && PageAt(c, o) == PathRows(c.shared, q)[l][k];
  }

  lemma PathPagesDistinct(c: Cache, ledger: Ledger, q: Path)
    requires Consistent(c, ledger) && MatchIndexed(c.shared, q)
    ensures Distinct(Flatten(PathRows(c.shared, q)))
  {
    var rows := PathRows(c.shared, q);
    hide LedgerOk, CacheOk;
    forall i, j, i', j' |
      0 <= i < |rows| && 0 <= j < |rows[i]| && 0 <= i' < |rows| && 0 <= j' < |rows[i']| && rows[i][j] == rows[i'][j']
      ensures i == i' && j == j'
    {
      PathRowPage(c, ledger, q, i, j);
      PathRowPage(c, ledger, q, i', j');
      assert |q[..j + 1]| == |q[..j' + 1]|;
    }
    FlattenDistinct(rows);
  }

  /** A block that request r does not use yet has room for one more reader. */
  lemma RoomForReader(tables: map<RequestId, Table>, r: RequestId, q: Path)
    requires r in tables && r !in Users(tables, q) && |tables| <= MAX_READERS
    ensures IndexedState(|Users(tables, q)|).Retain().Ok?
  {
    assert Users(tables, q) <= tables.Keys - {r};
    SubsetSize(Users(tables, q), tables.Keys - {r});
  }

  lemma RestoreRetains(c: Cache, ledger: Ledger, r: RequestId, q: Path)
    requires Consistent(c, ledger) && r in c.tables && c.tables[r].path == [] && MatchIndexed(c.shared, q)
    ensures var ids := Flatten(PathRows(c.shared, q));
            && Distinct(ids) && Retainable(c.shared.pool, ids)
            && RetainAll(c.shared.pool, ids) == PoolStep(Retained(c.shared.pool, ids), None)
            && PoolOk(Retained(c.shared.pool, ids))
  {
    hide StampsOk, FreeListExact, TableOk, PathRows, IsSlot, PageAt;
    var ids: seq<PageId> := Flatten(PathRows(c.shared, q));
    PathPagesDistinct(c, ledger, q);
    forall i | 0 <= i < |ids|
      ensures ids[i] < |c.shared.pool.states| && c.shared.pool.states[ids[i]].Retain().Ok?
    {
      PathPageMembers(c, ledger, q, ids[i]);
      assert r !in Users(c.tables, ledger[ids[i]].path);
      RoomForReader(c.tables, r, ledger[ids[i]].path);
    }
    hide CacheOk, LedgerOk;
    assert PoolOk(c.shared.pool);
    RetainAllEffect(c.shared.pool, ids, []);
    RetainKeepsFreeList(c.shared.pool, ids);
  }

  /** What a restore into an unpopulated table computes. */
  ghost function RestoredShared(c: Cache, q: Path): Shared
    requires CacheOk(c) && MatchIndexed(c.shared, q)
    requires Retainable(c.shared.pool, Flatten(PathRows(c.shared, q)))
  {
    Shared(c.shared.enabled, c.shared.layerCount, Retained(c.shared.pool, Flatten(PathRows(c.shared, q))),
           Touch(c.shared.trie, q, 0, |q|, c.shared.clock), c.shared.clock + 1)
  }

  lemma RestoreComputes(c: Cache, ledger: Ledger, r: RequestId, tokens: seq<Token>)
    requires Consistent(c, ledger) && r in c.tables && c.shared.enabled && !IsPopulated(c.tables[r])
    ensures c.tables[r].path == [] && forall l :: 0 <= l < |c.tables[r].layers| ==> c.tables[r].layers[l] == LayerTable([], 0)
    ensures var q := MatchedPath(c.shared, tokens);
            && Retainable(c.shared.pool, Flatten(PathRows(c.shared, q)))
            && PoolOk(Retained(c.shared.pool, Flatten(PathRows(c.shared, q))))
            && Restore(c.shared, c.tables[r], tokens) ==
                 Step(RestoredShared(c, q), RestoredTable(c.shared, q), Ok(|q| * c.shared.pool.pageTokens))
  {
    hide PathRows, StampsOk, FreeListExact, RetainAll, LayerOk, Div, Mod, CeilDiv, LedgerOk, PrefixClosed;
    UnpopulatedAtRoot(c.shared, c.tables[r]);
    RestoreRetains(c, ledger, r, MatchedPath(c.shared, tokens));
  }

  lemma RestoredSharedOk(c: Cache, ledger: Ledger, q: Path)
    requires Consistent(c, ledger) && MatchIndexed(c.shared, q) && c.shared.enabled
    requires Retainable(c.shared.pool, Flatten(PathRows(c.shared, q)))
    requires PoolOk(Retained(c.shared.pool, Flatten(PathRows(c.shared, q))))
    ensures SharedOk(RestoredShared(c, q)) && |RestoredShared(c, q).pool.states| == |c.shared.pool.states|
  {
    hide PathRows, FreeListExact, LedgerOk, TableOk;
    TouchKeepsTrie(c.shared.trie, q, 0, |q|, c.shared.clock);
    hide PrefixClosed, StampsOk;
  }

  lemma RestoredTableOk(c: Cache, ledger: Ledger, q: Path)
    requires Consistent(c, ledger) && MatchIndexed(c.shared, q) && c.shared.enabled
    requires Retainable(c.shared.pool, Flatten(PathRows(c.shared, q)))
    requires SharedShaped(RestoredShared(c, q))
    ensures TableOk(RestoredShared(c, q), RestoredTable(c.shared, q))
  {
    var s', t' := RestoredShared(c, q), RestoredTable(c.shared, q);
    hide StampsOk, FreeListExact, LayerOk, Div, Mod, CeilDiv, PrefixClosed, PathRows, TableOk, LedgerOk, RestoredTable;
    MulDiv(|q|, c.shared.pool.pageTokens);
    forall l, k | 0 <= l < c.shared.layerCount && 0 <= k < |q|
      ensures t'.layers[l].pages[k] < |c.shared.pool.states|
    {
      PathRowPage(c, ledger, q, l, k);
    }
    TableInOrder(s', t');
  }

  lemma RestoreCacheOk(c: Cache, ledger: Ledger, r: RequestId, tokens: seq<Token>)
    requires Consistent(c, ledger) && r in c.tables && c.shared.enabled && !IsPopulated(c.tables[r])
    ensures CacheOk(Applied(c, r, Restore(c.shared, c.tables[r], tokens)))
  {
    hide PathRows, LedgerOk, StampsOk, FreeListExact, LayerOk, Restore, RestoredTable;
    RestoreComputes(c, ledger, r, tokens);
    var q := MatchedPath(c.shared, tokens);
    RestoredSharedOk(c, ledger, q);
    RestoredTableOk(c, ledger, q);
    var c' := Applied(c, r, Restore(c.shared, c.tables[r], tokens));
    assert c'.tables.Keys == c.tables.Keys;
    hide SharedOk, MatchedPath;
    forall x | x in c'.tables
      ensures TableOk(c'.shared, c'.tables[x])
    {
      if x != r { TableOkTransfer(c.shared, c'.shared, c.tables[x]); }
    }
  }

  lemma TableInOrder(s: Shared, t: Table)
    requires SharedShaped(s) && TableShaped(s, t) && MatchIndexed(s, t.path)
    requires forall l :: 0 <= l < s.layerCount ==>
               && |t.layers[l].pages| == CeilDiv(t.layers[l].count, s.pool.pageTokens)
               && |t.path| <= Div(t.layers[l].count, s.pool.pageTokens) && |t.path| <= |t.layers[l].pages|
               && forall k :: 0 <= k < |t.path| ==> t.layers[l].pages[k] == s.trie[t.path[..k + 1]].pages[l]
    ensures TableOk(s, t)
  {
    hide Div, Mod, CeilDiv;
    forall l | 0 <= l < s.layerCount ensures LayerOk(s, t, l) {}
  }

  lemma RestoredStates(c: Cache, ledger: Ledger, r: RequestId, q: Path, p: PageId)
    requires Consistent(c, ledger) && r in c.tables && MatchIndexed(c.shared, q)
    requires forall l :: 0 <= l < |c.tables[r].layers| ==> c.tables[r].layers[l].pages == []
    requires Retainable(c.shared.pool, Flatten(PathRows(c.shared, q)))
    ensures var before, after := c.shared.pool.states, Retained(c.shared.pool, Flatten(PathRows(c.shared, q))).states;
            if p in ledger then p < |before| && StateAdvanced(before[p], after[p], r, 0, q, |q|, ledger[p])
            else p < |before| ==> after[p] == before[p]
  {
    PathPageMembers(c, ledger, q, p);
    if p in ledger { NeverBelowRoot(c, ledger, r, q, p); }
    hide CacheOk, LedgerOk, PathRows, Adopted, Consistent;
  }

  lemma RestoredShape(c: Cache, r: RequestId, q: Path)
    requires CacheOk(c) && r in c.tables && MatchIndexed(c.shared, q) && c.tables[r].path == []
    requires forall l :: 0 <= l < |c.tables[r].layers| ==> c.tables[r].layers[l].pages == []
    ensures LayersAdvanced(c.tables[r], RestoredTable(c.shared, q), q, |q|)
    ensures TrieAdvanced(c.shared.trie, Touch(c.shared.trie, q, 0, |q|, c.shared.clock), c.tables[r], q, |q|)
    ensures Branches(c.shared.trie, 0, q, |q|)
  {
    hide StampsOk, FreeListExact, LayerOk, PrefixClosed, PathRows, RestoredTable;
    assert NewPaths(q, |q|) == {};
  }

  lemma RestoreIsAdvance(c: Cache, ledger: Ledger, r: RequestId, tokens: seq<Token>)
    requires Consistent(c, ledger) && r in c.tables && c.shared.enabled && !IsPopulated(c.tables[r])
    ensures var q := MatchedPath(c.shared, tokens);
            AdvanceStep(c, ledger, Applied(c, r, Restore(c.shared, c.tables[r], tokens)), r, q, |q|)
  {
    hide StampsOk, FreeListExact, LayerOk, RetainAll, PrefixClosed, PathRows, Adopted, Restore, RestoredTable, StateAdvanced,
         LayersAdvanced, TrieAdvanced, Branches, LedgerOk, TableOk;
    RestoreComputes(c, ledger, r, tokens);
    var q := MatchedPath(c.shared, tokens);
    RestoredShape(c, r, q);
    hide CacheOk, MatchedPath;
    forall p: PageId
      ensures if p in ledger then
                && p < |c.shared.pool.states|
                && StateAdvanced(c.shared.pool.states[p], RestoredShared(c, q).pool.states[p], r, 0, q, |q|, ledger[p])
              else p < |c.shared.pool.states| ==> RestoredShared(c, q).pool.states[p] == c.shared.pool.states[p]
    {
      RestoredStates(c, ledger, r, q, p);
    }
  }

  /** A request without pages has no pending page to replace. */
  lemma NeverBelowRoot(c: Cache, ledger: Ledger, r: RequestId, q: Path, p: PageId)
    requires Consistent(c, ledger) && r in c.tables && p in ledger
    requires forall l :: 0 <= l < |c.tables[r].layers| ==> c.tables[r].layers[l].pages == []
    ensures p < |c.shared.pool.states| && !Replaced(r, |q|, ledger[p]) && !BecomesIndexed(r, q, |q|, ledger[p])
  {
    hide CacheOk;
  }

  /** Restoring attaches the longest indexed prefix of complete blocks: the request's views become
      that many entries long, nobody else's view changes, and the cache stays consistent. A populated
      table is refused, and without an index nothing is restored. */
  lemma RestoreExact(c: Cache, ledger: Ledger, r: RequestId, tokens: seq<Token>) returns (ledger': Ledger)
    requires Consistent(c, ledger) && r in c.tables
    ensures var step := Restore(c.shared, c.tables[r], tokens);
            var c' := Applied(c, r, step);
            && Consistent(c', ledger')
            && (c.shared.enabled && IsPopulated(c.tables[r]) ==> step.result == Err(TableAlreadyPopulated) && c' == c)
            && (!c.shared.enabled ==> step.result == Ok(0) && c' == c)
            && (c.shared.enabled && !IsPopulated(c.tables[r]) ==>
                  var blocks := Blocks(tokens, c.shared.pool.pageTokens);
                  var m := LongestMatch(c.shared.trie, blocks);
                  && step.result == Ok(m * c.shared.pool.pageTokens) && step.table.path == blocks[..m]
                  && (forall k :: 0 < k <= |blocks| ==> (blocks[..k] in c.shared.trie <==> k <= m))
                  && |step.table.layers| == c.shared.layerCount
                  && forall l :: 0 <= l < c.shared.layerCount ==> step.table.layers[l].count == m * c.shared.pool.pageTokens)
            && (forall x, l: nat :: x != r ==> ViewKept(c, c', x, l))
            && c'.shared.pool.pages == c.shared.pool.pages
  {
    var step := Restore(c.shared, c.tables[r], tokens);
    var c' := Applied(c, r, step);
    if c.shared.enabled && !IsPopulated(c.tables[r]) {
      RestoreCacheOk(c, ledger, r, tokens);
      RestoreIsAdvance(c, ledger, r, tokens);
      var q := MatchedPath(c.shared, tokens);
      AdvanceKeepsConsistent(c, ledger, c', r, q, |q|);
      ledger' := AdvancedLedger(ledger, r, q, |q|);
      LookupIsLongest(c.shared.trie, Blocks(tokens, c.shared.pool.pageTokens));
      RestoreComputes(c, ledger, r, tokens);
      hide Restore, LedgerOk, PrefixClosed, StampsOk, FreeListExact, RetainAll, TableOk, AdvanceStep, PathRows;
      forall x, l: nat | x != r ensures ViewKept(c, c', x, l) { UntouchedView(c, c', x, l); }
    } else {
      hide LedgerOk, PrefixClosed, StampsOk, FreeListExact;
      ledger' := ledger;
      assert c.tables[r := c.tables[r]] == c.tables;
      SamePagesSameViews(c, c');
    }
  }

  lemma UntouchedView(c: Cache, c': Cache, x: RequestId, l: nat)
    requires CacheOk(c) && CacheOk(c') && c'.shared.pool.pages == c.shared.pool.pages
    requires c'.shared.layerCount == c.shared.layerCount && c'.shared.pool.pageTokens == c.shared.pool.pageTokens
    requires x in c.tables ==> x in c'.tables && c'.tables[x] == c.tables[x]
    ensures ViewKept(c, c', x, l)
  {
    hide Div, Mod, CeilDiv, PrefixClosed, StampsOk, NodesShaped, FreeListExact;
    if x in c.tables && l < c.shared.layerCount {
      LayerView(c, x, l);
      LayerView(c', x, l);
      var layer := c.tables[x].layers[l];
      assert forall i :: 0 <= i < layer.count ==> EntryAt(c'.shared.pool, layer, i) == EntryAt(c.shared.pool, layer, i);
    }
  }
}
