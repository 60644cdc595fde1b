/** Moving a request's cursor down the index: restoring a cached prefix and publishing one. */
module CacheAdvance {
  import opened Common
  import opened CacheErrors
  import opened PagePool
  import opened PrefixTrie
  import opened PagedCacheSpec
  import opened CacheInvariant

  // ---- What both operations do to pages and slots ---------------------------------------------

  /** The request's own pending page that becomes the indexed page of a new block. */
  predicate BecomesIndexed(r: RequestId, full: Path, m: nat, o: Slot) {
    o.Pending? && o.request == r && m <= o.index < |full|
  }

  /** The request's own pending page that is replaced by the page of an already indexed block. */
  predicate Replaced(r: RequestId, m: nat, o: Slot) {
    o.Pending? && o.request == r && o.index < m
  }

  /** The page of an indexed block the request starts to use. */
  predicate Adopted(from: nat, full: Path, o: Slot) {
    o.Indexed? && o.path <= full && from < |o.path|
  }

  function Moved(r: RequestId, full: Path, m: nat, o: Slot): Slot {
    if BecomesIndexed(r, full, m, o) then Indexed(full[..o.index + 1], o.layer) else o
  }

  ghost function AdvancedLedger(ledger: Ledger, r: RequestId, full: Path, m: nat): Ledger {
    map p | p in ledger && !Replaced(r, m, ledger[p]) :: Moved(r, full, m, ledger[p])
  }

  ghost predicate StateAdvanced(before: PageState, after: PageState, r: RequestId, from: nat, full: Path, m: nat, o: Slot) {
    if BecomesIndexed(r, full, m, o) || Adopted(from, full, o) then before.Retain() == Ok(after)
    else if Replaced(r, m, o) then after == Unallocated
    else after == before
  }

  ghost predicate Branches(t: Trie, from: nat, full: Path, m: nat) {
    && from <= m <= |full|
    && (forall k :: 0 < k <= |full| ==> (full[..k] in t <==> k <= m))
  }

  /** The new page tables of the request: canonical pages up to the branch point, its own after. */
  ghost predicate LayersAdvanced(t: Table, t': Table, full: Path, m: nat) {
    && t'.path == full && |t'.layers| == |t.layers|
    && forall l :: 0 <= l < |t.layers| ==> LayerAdvanced(t.layers[l], t'.layers[l], full, m)
  }

  ghost predicate LayerAdvanced(a: LayerTable, b: LayerTable, full: Path, m: nat) {
    && (|a.pages| > m || |b.pages| > m ==> |b.pages| == |a.pages|)
    && (m < |full| ==> |full| <= |a.pages|)
    && (forall i :: m <= i < |b.pages| ==> b.pages[i] == a.pages[i])
  }

  ghost predicate TrieAdvanced(t: Trie, t': Trie, table: Table, full: Path, m: nat) {
    && (forall q :: q in t' <==> q in t || q in NewPaths(full, m))
    && (forall q :: q in t ==> t'[q].pages == t[q].pages)
    && (forall q :: q in NewPaths(full, m) ==> q in t' && NodeFromTable(t'[q], table, q))
  }

  /** The pages of a newly indexed block are the request's own pages at its depth. */
  ghost predicate NodeFromTable(node: Node, table: Table, q: Path) {
    && q != [] && |node.pages| == |table.layers|
    && forall l :: 0 <= l < |table.layers| ==> |q| <= |table.layers[l].pages| && node.pages[l] == table.layers[l].pages[|q| - 1]
  }

  ghost predicate AdvanceStep(c: Cache, ledger: Ledger, c': Cache, r: RequestId, full: Path, m: nat) {
    && Consistent(c, ledger) && r in c.tables && c.tables[r].path <= full
    && Branches(c.shared.trie, |c.tables[r].path|, full, m)
    && c'.tables.Keys == c.tables.Keys && (forall x :: x in c.tables && x != r ==> c'.tables[x] == c.tables[x])
    && LayersAdvanced(c.tables[r], c'.tables[r], full, m)
    && TrieAdvanced(c.shared.trie, c'.shared.trie, c.tables[r], full, m)
    && |c'.shared.pool.states| == |c.shared.pool.states|
    && (forall p | p in ledger ::
          && p < |c.shared.pool.states|
          && StateAdvanced(c.shared.pool.states[p], c'.shared.pool.states[p], r, |c.tables[r].path|, full, m, ledger[p]))
    && (forall p: PageId :: p < |c.shared.pool.states| && p !in ledger ==> c'.shared.pool.states[p] == c.shared.pool.states[p])
  }

  lemma UsedBlockIndexed(c: Cache, q: Path)
    requires CacheOk(c) && q != [] && Users(c.tables, q) != {}
    ensures q in c.shared.trie
  {
    hide SharedOk, LayerOk;
    var x :| x in Users(c.tables, q);
    assert q == c.tables[x].path[..|q|];
  }

  lemma PrefixOfPath(q: Path, full: Path)
    ensures q <= full <==> |q| <= |full| && q == full[..|q|]
  {
  }

  /** The request joins the users of the indexed blocks between its old cursor and the new one. */
  lemma UsersOfIndexed(c: Cache, ledger: Ledger, c': Cache, r: RequestId, full: Path, m: nat, q: Path)
    requires AdvanceStep(c, ledger, c', r, full, m)
    ensures Users(c'.tables, q) ==
              if q <= full && |c.tables[r].path| < |q| then Users(c.tables, q) + {r} else Users(c.tables, q)
    ensures q <= full && |c.tables[r].path| < |q| ==> r !in Users(c.tables, q)
  {
    hide Consistent, TrieAdvanced, StateAdvanced, LayerAdvanced, Branches;
    var path := c.tables[r].path;
    PrefixOfPath(q, full);
    PrefixOfPath(q, path);
    PrefixOfPath(path, full);
    if |q| <= |path| { assert full[..|q|] == path[..|q|]; }
    var users' := if q <= full && |path| < |q| then Users(c.tables, q) + {r} else Users(c.tables, q);
    forall x
      ensures x in Users(c'.tables, q) <==> x in users'
    {
    }
  }

  /** The request is the only user of a block it adds. */
  lemma UsersOfNew(c: Cache, ledger: Ledger, c': Cache, r: RequestId, full: Path, m: nat, q: Path)
    requires AdvanceStep(c, ledger, c', r, full, m) && q in NewPaths(full, m)
    ensures Users(c'.tables, q) == {r} && q <= full && |c.tables[r].path| < |q|
  {
    UsersOfIndexed(c, ledger, c', r, full, m, q);
    hide SharedOk, LedgerOk, LayersAdvanced, TrieAdvanced, StateAdvanced, LayerOk;
    PrefixOfPath(q, full);
    assert q != [] && q !in c.shared.trie;
    if Users(c.tables, q) != {} { UsedBlockIndexed(c, q); }
  }

  lemma AdvancedSlotRecorded(c: Cache, ledger: Ledger, c': Cache, r: RequestId, full: Path, m: nat, o: Slot)
    requires AdvanceStep(c, ledger, c', r, full, m)
    ensures SlotRecorded(c', AdvancedLedger(ledger, r, full, m), o)
  {
    if IsSlot(c', o) {
      if o.Pending? {
        RemainingSlotRecorded(c, ledger, c', r, full, m, o);
      } else if o.path in c.shared.trie {
        RemainingSlotRecorded(c, ledger, c', r, full, m, o);
      } else {
        NewSlotRecorded(c, ledger, c', r, full, m, o.path, o.layer);
      }
    }
  }

  lemma LedgerEntry(c: Cache, ledger: Ledger, o: Slot)
    requires Consistent(c, ledger) && IsSlot(c, o)
    ensures PageAt(c, o) in ledger && ledger[PageAt(c, o)] == o
  {
    hide CacheOk;
  }

  lemma RemainingSlotRecorded(c: Cache, ledger: Ledger, c': Cache, r: RequestId, full: Path, m: nat, o: Slot)
    requires AdvanceStep(c, ledger, c', r, full, m) && IsSlot(c', o)
    requires o.Indexed? ==> o.path in c.shared.trie
    ensures SlotRecorded(c', AdvancedLedger(ledger, r, full, m), o)
  {
    assert Consistent(c, ledger) && m <= |full|;
    hide AdvanceStep, Consistent, IsSlot, PageAt;
    if o.Pending? {
      PendingSlot(c, ledger, c', r, full, m, o);
    } else {
      OldBlockSlot(c, ledger, c', r, full, m, o.path, o.layer);
    }
    LedgerEntry(c, ledger, o);
  }

  lemma NewSlotRecorded(c: Cache, ledger: Ledger, c': Cache, r: RequestId, full: Path, m: nat, q: Path, l: nat)
    requires AdvanceStep(c, ledger, c', r, full, m) && IsSlot(c', Indexed(q, l)) && q !in c.shared.trie
    ensures SlotRecorded(c', AdvancedLedger(ledger, r, full, m), Indexed(q, l))
  {
    assert Consistent(c, ledger);
    hide AdvanceStep, Consistent, IsSlot, PageAt, AdvancedLedger;
    NewBlockSlot(c, ledger, c', r, full, m, q, l);
    LedgerEntry(c, ledger, Pending(r, l, |q| - 1));
    MovedToBlock(ledger, r, full, m, PageAt(c', Indexed(q, l)), q, l);
  }

  /** A page that a request hands to a new block is listed under that block. */
  lemma MovedToBlock(ledger: Ledger, r: RequestId, full: Path, m: nat, p: PageId, q: Path, l: nat)
    requires p in ledger && q != [] && ledger[p] == Pending(r, l, |q| - 1) && m <= |q| - 1 < |full| && q == full[..|q| - 1 + 1]
    ensures p in AdvancedLedger(ledger, r, full, m) && AdvancedLedger(ledger, r, full, m)[p] == Indexed(q, l)
  {
  }

  lemma OldBlockSlot(c: Cache, ledger: Ledger, c': Cache, r: RequestId, full: Path, m: nat, q: Path, l: nat)
    requires AdvanceStep(c, ledger, c', r, full, m) && q in c.shared.trie
    ensures IsSlot(c', Indexed(q, l)) <==> IsSlot(c, Indexed(q, l))
    ensures IsSlot(c, Indexed(q, l)) ==> PageAt(c, Indexed(q, l)) == PageAt(c', Indexed(q, l))
  {
    hide Consistent, StateAdvanced, LayersAdvanced, Branches, NodeFromTable;
  }

  lemma NewBlockSlot(c: Cache, ledger: Ledger, c': Cache, r: RequestId, full: Path, m: nat, q: Path, l: nat)
    requires AdvanceStep(c, ledger, c', r, full, m) && q !in c.shared.trie && IsSlot(c', Indexed(q, l))
    ensures q in NewPaths(full, m) && m <= |q| - 1 < |full| && q == full[..|q| - 1 + 1]
    ensures IsSlot(c, Pending(r, l, |q| - 1)) && PageAt(c, Pending(r, l, |q| - 1)) == PageAt(c', Indexed(q, l))
  {
    hide Consistent, StateAdvanced, LayersAdvanced;
  }

  /** Which pending positions remain after the step: all but the request's own up to the new cursor. */
  lemma PendingSlot(c: Cache, ledger: Ledger, c': Cache, r: RequestId, full: Path, m: nat, o: Slot)
    requires AdvanceStep(c, ledger, c', r, full, m) && o.Pending?
    ensures IsSlot(c', o) <==> IsSlot(c, o) && !(o.request == r && o.index < |full|)
    ensures IsSlot(c', o) ==> PageAt(c', o) == PageAt(c, o)
  {
    hide Consistent, StateAdvanced, TrieAdvanced;
    assert |c.tables[r].path| <= m <= |full|;
    if o.request == r && o.layer < |c.tables[r].layers| {
      assert LayerAdvanced(c.tables[r].layers[o.layer], c'.tables[r].layers[o.layer], full, m);
    }
  }

  lemma AdvancedPageAccounted(c: Cache, ledger: Ledger, c': Cache, r: RequestId, full: Path, m: nat, p: PageId)
    requires AdvanceStep(c, ledger, c', r, full, m)
    ensures PageAccounted(c', AdvancedLedger(ledger, r, full, m), p)
  {
    if p in ledger {
      if ledger[p].Indexed? {
        IndexedAccounted(c, ledger, c', r, full, m, p);
      } else {
        PendingAccounted(c, ledger, c', r, full, m, p);
      }
    }
  }

  lemma StepState(c: Cache, ledger: Ledger, c': Cache, r: RequestId, full: Path, m: nat, p: PageId)
    requires AdvanceStep(c, ledger, c', r, full, m) && p in ledger
    ensures IsSlot(c, ledger[p]) && PageAt(c, ledger[p]) == p
    ensures r in c.tables && p < |c.shared.pool.states| == |c'.shared.pool.states|
    ensures c.shared.pool.states[p] == StateOf(c.tables, ledger[p])
    ensures StateAdvanced(c.shared.pool.states[p], c'.shared.pool.states[p], r, |c.tables[r].path|, full, m, ledger[p])
    ensures ledger[p].Indexed? ==> ledger[p].path in c.shared.trie
    ensures |c.tables[r].path| <= m
  {
    hide CacheOk, LayersAdvanced, TrieAdvanced, StateAdvanced, StateOf;
  }

  lemma IndexedAccounted(c: Cache, ledger: Ledger, c': Cache, r: RequestId, full: Path, m: nat, p: PageId)
    requires AdvanceStep(c, ledger, c', r, full, m) && p in ledger && ledger[p].Indexed?
    ensures PageAccounted(c', AdvancedLedger(ledger, r, full, m), p)
  {
    hide AdvanceStep, Users, IsSlot, PageAt;
    StepState(c, ledger, c', r, full, m, p);
    var o := ledger[p];
    UsersOfIndexed(c, ledger, c', r, full, m, o.path);
    OldBlockSlot(c, ledger, c', r, full, m, o.path, o.layer);
  }

  lemma PendingAccounted(c: Cache, ledger: Ledger, c': Cache, r: RequestId, full: Path, m: nat, p: PageId)
    requires AdvanceStep(c, ledger, c', r, full, m) && p in ledger && ledger[p].Pending?
    ensures PageAccounted(c', AdvancedLedger(ledger, r, full, m), p)
  {
    hide AdvanceStep, Users, IsSlot, PageAt;
    StepState(c, ledger, c', r, full, m, p);
    var o := ledger[p];
    if BecomesIndexed(r, full, m, o) {
      var q := full[..o.index + 1];
      assert q in NewPaths(full, m);
      UsersOfNew(c, ledger, c', r, full, m, q);
      NewNodePage(c, ledger, c', r, full, m, q, o);
      assert |Users(c'.tables, q)| == 1;
    } else {
      PendingSlot(c, ledger, c', r, full, m, o);
    }
  }

  lemma NewNodePage(c: Cache, ledger: Ledger, c': Cache, r: RequestId, full: Path, m: nat, q: Path, o: Slot)
    requires AdvanceStep(c, ledger, c', r, full, m) && BecomesIndexed(r, full, m, o) && IsSlot(c, o)
    requires q == full[..o.index + 1] && q in NewPaths(full, m)
    ensures IsSlot(c', Indexed(q, o.layer)) && PageAt(c', Indexed(q, o.layer)) == PageAt(c, o)
  {
    hide Consistent, StateAdvanced, LayersAdvanced;
  }

  /** Advancing a cursor keeps the cache consistent. */
  lemma AdvanceKeepsConsistent(c: Cache, ledger: Ledger, c': Cache, r: RequestId, full: Path, m: nat)
    requires AdvanceStep(c, ledger, c', r, full, m) && CacheOk(c')
    ensures Consistent(c', AdvancedLedger(ledger, r, full, m))
  {
    hide AdvanceStep, CacheOk, LedgerOk, SlotRecorded, PageAccounted;
    var ledger' := AdvancedLedger(ledger, r, full, m);
    forall o ensures SlotRecorded(c', ledger', o) { AdvancedSlotRecorded(c, ledger, c', r, full, m, o); }
    forall p: PageId ensures PageAccounted(c', ledger', p) { AdvancedPageAccounted(c, ledger, c', r, full, m, p); }
    LedgerFromParts(c', ledger');
  }
}
