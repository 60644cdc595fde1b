/** Publishing a request's completed blocks. */
module CachePublish {
  import opened Common
  import opened Arithmetic
  import opened CacheErrors
  import opened PagePool
  import opened PrefixTrie
  import opened PagedCacheSpec
  import opened CacheInvariant
  import opened CacheAppend
  import opened CacheAdvance
  import opened CacheRestore

  // ---- The pool side -------------------------------------------------------------------------

  ghost predicate DisjointLists(a: seq<PageId>, b: seq<PageId>) {
    forall x :: x in a ==> x !in b
  }

  /** Three disjoint lists of pages move one step each and nothing else moves. */
  lemma PublishPagesEffect(p: Pool, indexed: seq<PageId>, canonical: seq<PageId>, replaced: seq<PageId>)
    requires PoolOk(p) && Distinct(indexed) && Distinct(canonical) && Distinct(replaced)
    requires DisjointLists(indexed, canonical) && DisjointLists(indexed, replaced) && DisjointLists(canonical, replaced)
    requires Retainable(p, indexed) && Retainable(p, canonical) && Releasable(p, replaced)
    ensures var step := PublishPages(p, indexed, canonical, replaced);
            && step.error == None && step.adopted && PoolOk(step.pool)
            && |step.pool.states| == |p.states| && step.pool.pages == p.pages && step.pool.pageTokens == p.pageTokens
            && forall i :: 0 <= i < |p.states| ==>
                 if i in indexed || i in canonical then p.states[i].Retain() == Ok(step.pool.states[i])
                 else if i in replaced then p.states[i].Release() == Ok(step.pool.states[i])
                 else step.pool.states[i] == p.states[i]
  {
    hide RetainAll, ReleaseAll;
    assert RetainAll(p, indexed) == PoolStep(Retained(p, indexed), None) by { RetainAllFromStart(p, indexed); }
    RetainKeepsFreeList(p, indexed);
    var p1 := Retained(p, indexed);
    hide PoolOk;
    SameStatesRetainable(p, p1, canonical);
    assert RetainAll(p1, canonical) == PoolStep(Retained(p1, canonical), None) by { RetainAllFromStart(p1, canonical); }
    RetainKeepsFreeList(p1, canonical);
    var p2 := Retained(p1, canonical);
    SameStatesReleasable(p, p2, replaced);
    ReleaseAllEffect(p2, replaced);
  }

  lemma RetainAllFromStart(p: Pool, ids: seq<PageId>)
    requires Retainable(p, ids) && Distinct(ids)
    ensures RetainAll(p, ids) == PoolStep(Retained(p, ids), None)
  {
    RetainAllEffect(p, ids, []);
  }

  lemma SameStatesRetainable(p: Pool, p': Pool, ids: seq<PageId>)
    requires Retainable(p, ids) && |p'.states| == |p.states|
    requires forall i :: 0 <= i < |p.states| && i in ids ==> p'.states[i] == p.states[i]
    ensures Retainable(p', ids)
  {
  }

  lemma SameStatesReleasable(p: Pool, p': Pool, ids: seq<PageId>)
    requires Releasable(p, ids) && |p'.states| == |p.states|
    requires forall i :: 0 <= i < |p.states| && i in ids ==> p'.states[i] == p.states[i]
    ensures Releasable(p', ids)
  {
  }

  lemma {:induction false} DifferingAll(a: seq<PageId>, b: seq<PageId>)
    requires |a| == |b| && forall k :: 0 <= k < |a| ==> a[k] != b[k]
    ensures Differing(a, b) == a
  {
    if a != [] {
      assert a[1..] == a[1..] && forall k :: 0 <= k < |a[1..]| ==> a[1..][k] == a[k + 1] && b[1..][k] == b[k + 1];
      DifferingAll(a[1..], b[1..]);
      assert [a[0]] + a[1..] == a;
    }
  }

  // ---- Where the three lists come from -------------------------------------------------------

  /** Every layer of the request holds the same tokens: publication happens between model steps. */
  ghost predicate Uniform(t: Table) {
    forall l :: 0 <= l < |t.layers| ==> t.layers[l].count == CachedCount(t)
  }

  /** Every layer has all the complete blocks of the first one, whose count stands for the request. */
  ghost predicate BlocksComplete(s: Shared, t: Table) {
    s.pool.pageTokens > 0 && forall l :: 0 <= l < |t.layers| ==> Div(CachedCount(t), s.pool.pageTokens) <= Div(t.layers[l].count, s.pool.pageTokens)
  }

  lemma UniformIsComplete(s: Shared, t: Table)
    requires Uniform(t) && s.pool.pageTokens > 0
    ensures BlocksComplete(s, t)
  {
    hide Div;
  }

  ghost function PublishedPath(s: Shared, t: Table, tokens: seq<Token>): Path
    requires SharedShaped(s) && CachedCount(t) <= |tokens|
    requires |t.path| <= |Blocks(tokens[..CachedCount(t)], s.pool.pageTokens)|
  {
    t.path + Blocks(tokens[..CachedCount(t)], s.pool.pageTokens)[|t.path|..]
  }

  /** What every lemma about a publication assumes. */
  ghost predicate Publishing(c: Cache, ledger: Ledger, r: RequestId, full: Path, m: nat) {
    && Consistent(c, ledger) && r in c.tables
    && Publishable(c.shared, c.tables[r], full, m)
    && Branches(c.shared.trie, |c.tables[r].path|, full, m)
    && (forall l :: 0 <= l < |c.tables[r].layers| ==> |full| <= Div(c.tables[r].layers[l].count, c.shared.pool.pageTokens))
    && (forall k :: 0 <= k < |full| ==> |full[k]| == c.shared.pool.pageTokens)
    && c.shared.enabled
  }

  lemma PublishingBasics(c: Cache, ledger: Ledger, r: RequestId, full: Path, m: nat)
    requires Publishing(c, ledger, r, full, m)
    ensures SharedShaped(c.shared) && r in c.tables && Publishable(c.shared, c.tables[r], full, m)
    ensures |c.tables[r].layers| == c.shared.layerCount && |c.tables[r].path| <= m <= |full|
    ensures Consistent(c, ledger) && Branches(c.shared.trie, |c.tables[r].path|, full, m)
  {
    hide LedgerOk, PrefixClosed, StampsOk, FreeListExact, TableOk;
  }

  lemma OwnPage(c: Cache, ledger: Ledger, r: RequestId, full: Path, m: nat, l: nat, k: nat)
    requires Publishing(c, ledger, r, full, m) && l < c.shared.layerCount && |c.tables[r].path| <= k < |full|
    ensures l < |c.tables[r].layers| && k < |c.tables[r].layers[l].pages|
    ensures var p := c.tables[r].layers[l].pages[k];
            p in ledger && ledger[p] == Pending(r, l, k) && p < |c.shared.pool.states|
  {
    assert Consistent(c, ledger) && Publishable(c.shared, c.tables[r], full, m);
    hide Consistent, Publishing;
    PageInLedger(c, ledger, r, l, k);
  }

  lemma CanonicalPage(c: Cache, ledger: Ledger, r: RequestId, full: Path, m: nat, l: nat, k: nat)
    requires Publishing(c, ledger, r, full, m) && l < c.shared.layerCount && k < m
    ensures full[..k + 1] in c.shared.trie && l < |c.shared.trie[full[..k + 1]].pages|
    ensures var p := c.shared.trie[full[..k + 1]].pages[l];
            p in ledger && ledger[p] == Indexed(full[..k + 1], l) && p < |c.shared.pool.states|
  {
    hide PrefixClosed, StampsOk, FreeListExact, TableOk;
    var o := Indexed(full[..k + 1], l);
    assert IsSlot(c, o);
    assert PageAt(c, o) in ledger;
  }

  lemma NewRowPage(c: Cache, ledger: Ledger, r: RequestId, full: Path, m: nat, i: nat, l: nat)
    requires Publishing(c, ledger, r, full, m) && i < |full| - m && l < c.shared.layerCount
    ensures var rows := NewRows(c.shared, c.tables[r], full, m);
            && |rows[i]| == c.shared.layerCount && rows[i][l] in ledger && ledger[rows[i][l]] == Pending(r, l, m + i)
            && rows[i][l] < |c.shared.pool.states|
  {
    hide Consistent;
    OwnPage(c, ledger, r, full, m, l, m + i);
  }

  lemma NodeWidth(c: Cache, q: Path)
    requires SharedShaped(c.shared) && q in c.shared.trie
    ensures |c.shared.trie[q].pages| == c.shared.layerCount
  {
  }

  /** A page of a pending block is not the page of the indexed block. */
  lemma PagesDiffer(c: Cache, ledger: Ledger, r: RequestId, full: Path, m: nat, k: nat, l: nat)
    requires Publishing(c, ledger, r, full, m) && r in c.tables && |c.tables[r].path| <= k < m <= |full| && l < c.shared.layerCount
    ensures full[..k + 1] in c.shared.trie && l < |c.shared.trie[full[..k + 1]].pages|
    ensures l < |c.tables[r].layers| && k < |c.tables[r].layers[l].pages|
    ensures c.shared.trie[full[..k + 1]].pages[l] != c.tables[r].layers[l].pages[k]
  {
    hide Publishing;
    OwnPage(c, ledger, r, full, m, l, k);
    CanonicalPage(c, ledger, r, full, m, l, k);
  }

  lemma ColumnsDiffer(c: Cache, ledger: Ledger, r: RequestId, full: Path, m: nat, i: nat)
    requires Publishing(c, ledger, r, full, m) && i < m - |c.tables[r].path|
    ensures SharedShaped(c.shared)
    ensures var k := |c.tables[r].path| + i;
            && full[..k + 1] in c.shared.trie
            && CanonicalRows(c.shared, c.tables[r], full, m)[i] == c.shared.trie[full[..k + 1]].pages
            && ReplacedRows(c.shared, c.tables[r], full, m)[i] == Column(c.tables[r], k)
  {
    hide Publishing, Consistent, Differing, SharedShaped, Column, Publishable, Branches;
    PublishingBasics(c, ledger, r, full, m);
    EveryPageDiffers(c, ledger, r, full, m, |c.tables[r].path| + i);
  }

  lemma EveryPageDiffers(c: Cache, ledger: Ledger, r: RequestId, full: Path, m: nat, k: nat)
    requires Publishing(c, ledger, r, full, m) && Publishable(c.shared, c.tables[r], full, m) && |c.tables[r].path| <= k < m
    ensures full[..k + 1] in c.shared.trie && |c.shared.trie[full[..k + 1]].pages| == |Column(c.tables[r], k)|
    ensures Differing(c.shared.trie[full[..k + 1]].pages, Column(c.tables[r], k)) == c.shared.trie[full[..k + 1]].pages
    ensures Differing(Column(c.tables[r], k), c.shared.trie[full[..k + 1]].pages) == Column(c.tables[r], k)
  {
    PublishingBasics(c, ledger, r, full, m);
    hide Publishing, Consistent, Differing;
    CanonicalPage(c, ledger, r, full, m, 0, k);
    var canon, own := c.shared.trie[full[..k + 1]].pages, Column(c.tables[r], k);
    NodeWidth(c, full[..k + 1]);
    forall l | 0 <= l < |own|
      ensures canon[l] != own[l]
    {
      PagesDiffer(c, ledger, r, full, m, k, l);
    }
    DifferingAll(canon, own);
    DifferingAll(own, canon);
  }

  lemma CanonicalRowPage(c: Cache, ledger: Ledger, r: RequestId, full: Path, m: nat, i: nat, l: nat)
    requires Publishing(c, ledger, r, full, m) && i < m - |c.tables[r].path| && l < c.shared.layerCount
    ensures SharedShaped(c.shared)
    ensures var rows := CanonicalRows(c.shared, c.tables[r], full, m);
            var k := |c.tables[r].path| + i;
            && |rows[i]| == c.shared.layerCount && rows[i][l] in ledger && ledger[rows[i][l]] == Indexed(full[..k + 1], l)
            && rows[i][l] < |c.shared.pool.states|
  {
    PublishingBasics(c, ledger, r, full, m);
    hide Publishing, Publishable, Consistent, CanonicalRows, ReplacedRows, Differing, Column, SharedShaped;
    ColumnsDiffer(c, ledger, r, full, m, i);
    CanonicalPage(c, ledger, r, full, m, l, |c.tables[r].path| + i);
  }

  lemma ReplacedRowPage(c: Cache, ledger: Ledger, r: RequestId, full: Path, m: nat, i: nat, l: nat)
    requires Publishing(c, ledger, r, full, m) && i < m - |c.tables[r].path| && l < c.shared.layerCount
    ensures SharedShaped(c.shared)
    ensures var rows := ReplacedRows(c.shared, c.tables[r], full, m);
            var k := |c.tables[r].path| + i;
            && |rows[i]| == c.shared.layerCount && rows[i][l] in ledger && ledger[rows[i][l]] == Pending(r, l, k)
            && rows[i][l] < |c.shared.pool.states|
  {
    hide Publishing, Publishable, Consistent, ReplacedRows, CanonicalRows, Differing, Column, SharedShaped;
    PublishingBasics(c, ledger, r, full, m);
    ColumnsDiffer(c, ledger, r, full, m, i);
    OwnPage(c, ledger, r, full, m, l, |c.tables[r].path| + i);
  }

  lemma PublishingShape(c: Cache, ledger: Ledger, r: RequestId, full: Path, m: nat)
    requires Publishing(c, ledger, r, full, m)
    ensures SharedShaped(c.shared) && r in c.tables && Publishable(c.shared, c.tables[r], full, m)
    ensures |c.tables[r].layers| == c.shared.layerCount && |c.tables[r].path| <= m <= |full|
    ensures Consistent(c, ledger)
    ensures forall i :: 0 <= i < |full| - m ==> |NewRows(c.shared, c.tables[r], full, m)[i]| == c.shared.layerCount
    ensures forall i :: 0 <= i < m - |c.tables[r].path| ==>
              && |CanonicalRows(c.shared, c.tables[r], full, m)[i]| == c.shared.layerCount
              && |ReplacedRows(c.shared, c.tables[r], full, m)[i]| == c.shared.layerCount
  {
    forall i | 0 <= i < m - |c.tables[r].path|
      ensures |CanonicalRows(c.shared, c.tables[r], full, m)[i]| == c.shared.layerCount
      ensures |ReplacedRows(c.shared, c.tables[r], full, m)[i]| == c.shared.layerCount
    {
      CanonicalRowPage(c, ledger, r, full, m, i, 0);
      ReplacedRowPage(c, ledger, r, full, m, i, 0);
    }
    hide LedgerOk, PrefixClosed, StampsOk, FreeListExact, TableOk;
  }

  /** Newly indexed pages are the request's own pending pages from the branch point on. */
  lemma NewMembers(c: Cache, ledger: Ledger, r: RequestId, full: Path, m: nat, p: PageId)
    requires Publishing(c, ledger, r, full, m) && Publishable(c.shared, c.tables[r], full, m)
    ensures p in Flatten(NewRows(c.shared, c.tables[r], full, m)) <==> p in ledger && BecomesIndexed(r, full, m, ledger[p])
  {
    PublishingShape(c, ledger, r, full, m);
    hide Publishing, NewRows, Publishable;
    var rows := NewRows(c.shared, c.tables[r], full, m);
    FlattenMembers(rows, p);
    if p in ledger && BecomesIndexed(r, full, m, ledger[p]) {
      var o := ledger[p];
      OwnSlotPage(c, ledger, p);
      assert rows[o.index - m][o.layer] == p;
    }
    if i, l :| 0 <= i < |rows| && 0 <= l < |rows[i]| && rows[i][l] == p {
      NewRowPage(c, ledger, r, full, m, i, l);
    }
  }

  lemma OwnSlotPage(c: Cache, ledger: Ledger, p: PageId)
    requires Consistent(c, ledger) && p in ledger && ledger[p].Pending?
    ensures ledger[p].request in c.tables
    ensures var t := c.tables[ledger[p].request];
            ledger[p].layer < |t.layers| && |t.path| <= ledger[p].index < |t.layers[ledger[p].layer].pages| &&
            t.layers[ledger[p].layer].pages[ledger[p].index] == p
  {
    hide CacheOk;
    assert IsSlot(c, ledger[p]) && PageAt(c, ledger[p]) == p;
  }

  lemma NodeSlotPage(c: Cache, ledger: Ledger, p: PageId)
    requires Consistent(c, ledger) && p in ledger && ledger[p].Indexed?
    ensures ledger[p].path in c.shared.trie && ledger[p].path != []
    ensures |c.shared.trie[ledger[p].path].pages| == c.shared.layerCount && ledger[p].layer < c.shared.layerCount
    ensures c.shared.trie[ledger[p].path].pages[ledger[p].layer] == p
  {
    assert IsSlot(c, ledger[p]) && PageAt(c, ledger[p]) == p;
  }

  /** Retained canonical pages are those of the indexed blocks between the old cursor and the branch. */
  lemma CanonicalMembers(c: Cache, ledger: Ledger, r: RequestId, full: Path, m: nat, p: PageId)
    requires Publishing(c, ledger, r, full, m) && Publishable(c.shared, c.tables[r], full, m) && SharedShaped(c.shared)
    ensures p in Flatten(CanonicalRows(c.shared, c.tables[r], full, m)) <==>
            p in ledger && Adopted(|c.tables[r].path|, full, ledger[p])
  {
    var rows := CanonicalRows(c.shared, c.tables[r], full, m);
    PublishingShape(c, ledger, r, full, m);
    hide Publishing, CanonicalRows, Publishable, Consistent, Adopted, SharedShaped, Differing, Column;
    FlattenMembers(rows, p);
    if p in ledger && Adopted(|c.tables[r].path|, full, ledger[p]) { AdoptedInCanonicalRows(c, ledger, r, full, m, p); }
    if i, l :| 0 <= i < |rows| && 0 <= l < |rows[i]| && rows[i][l] == p {
      CanonicalRowPage(c, ledger, r, full, m, i, l);
      BelowCursorAdopted(|c.tables[r].path|, full, |c.tables[r].path| + i, l);
    }
  }

  lemma BelowCursorAdopted(from: nat, full: Path, k: nat, l: nat)
    requires from <= k < |full|
    ensures Adopted(from, full, Indexed(full[..k + 1], l))
  {
  }

  lemma AdoptedInCanonicalRows(c: Cache, ledger: Ledger, r: RequestId, full: Path, m: nat, p: PageId)
    requires Publishing(c, ledger, r, full, m) && Publishable(c.shared, c.tables[r], full, m) && SharedShaped(c.shared)
    requires p in ledger && Adopted(|c.tables[r].path|, full, ledger[p])
    ensures var rows := CanonicalRows(c.shared, c.tables[r], full, m);
            exists i :: 0 <= i < |rows| && p in rows[i]
  {
    hide Publishing, CanonicalRows, Publishable, Consistent, SharedShaped, Differing, Column;
    var o := ledger[p];
    PublishingBasics(c, ledger, r, full, m);
    var rows := CanonicalRows(c.shared, c.tables[r], full, m);
    NodeSlotPage(c, ledger, p);
    AdoptedBeforeBranch(c, ledger, r, full, m, o.path);
    var i := |o.path| - 1 - |c.tables[r].path|;
    ColumnsDiffer(c, ledger, r, full, m, i);
    assert rows[i][o.layer] == p;
  }

  lemma ReplacedInReplacedRows(c: Cache, ledger: Ledger, r: RequestId, full: Path, m: nat, p: PageId)
    requires Publishing(c, ledger, r, full, m) && Publishable(c.shared, c.tables[r], full, m) && SharedShaped(c.shared)
    requires p in ledger && Replaced(r, m, ledger[p])
    ensures var rows := ReplacedRows(c.shared, c.tables[r], full, m);
            exists i :: 0 <= i < |rows| && p in rows[i]
  {
    var o := ledger[p];
    var rows := ReplacedRows(c.shared, c.tables[r], full, m);
    PublishingBasics(c, ledger, r, full, m);
    hide Publishing, ReplacedRows, Publishable, Consistent, SharedShaped, Differing, Column;
    OwnSlotPage(c, ledger, p);
    var i := o.index - |c.tables[r].path|;
    ColumnsDiffer(c, ledger, r, full, m, i);
    assert rows[i][o.layer] == p;
  }

  lemma AdoptedBeforeBranch(c: Cache, ledger: Ledger, r: RequestId, full: Path, m: nat, q: Path)
    requires Publishing(c, ledger, r, full, m) && q in c.shared.trie && q <= full && q != []
    ensures |q| <= m && q == full[..|q| - 1 + 1]
  {
    hide Consistent, Publishable;
    assert q == full[..|q|];
  }

  /** Replaced pages are the request's own pending pages before the branch point. */
  lemma ReplacedMembers(c: Cache, ledger: Ledger, r: RequestId, full: Path, m: nat, p: PageId)
    requires Publishing(c, ledger, r, full, m) && Publishable(c.shared, c.tables[r], full, m) && SharedShaped(c.shared)
    ensures p in Flatten(ReplacedRows(c.shared, c.tables[r], full, m)) <==> p in ledger && Replaced(r, m, ledger[p])
  {
    var rows := ReplacedRows(c.shared, c.tables[r], full, m);
    PublishingShape(c, ledger, r, full, m);
    hide Publishing, ReplacedRows, Publishable, Consistent, SharedShaped, Differing, Column;
    FlattenMembers(rows, p);
    if p in ledger && Replaced(r, m, ledger[p]) { ReplacedInReplacedRows(c, ledger, r, full, m, p); }
    if i, l :| 0 <= i < |rows| && 0 <= l < |rows[i]| && rows[i][l] == p {
      ReplacedRowPage(c, ledger, r, full, m, i, l);
    }
  }

  lemma ListsDistinct(c: Cache, ledger: Ledger, r: RequestId, full: Path, m: nat)
    requires Publishing(c, ledger, r, full, m) && Publishable(c.shared, c.tables[r], full, m) && SharedShaped(c.shared)
    ensures Distinct(Flatten(NewRows(c.shared, c.tables[r], full, m)))
    ensures Distinct(Flatten(CanonicalRows(c.shared, c.tables[r], full, m)))
    ensures Distinct(Flatten(ReplacedRows(c.shared, c.tables[r], full, m)))
  {
    PublishingShape(c, ledger, r, full, m);
    hide Publishing, Publishable, Consistent, NewRows, CanonicalRows, ReplacedRows;
    var a := NewRows(c.shared, c.tables[r], full, m);
    forall i, j, i', j' | 0 <= i < |a| && 0 <= j < |a[i]| && 0 <= i' < |a| && 0 <= j' < |a[i']| && a[i][j] == a[i'][j']
      ensures i == i' && j == j'
    {
      NewRowPage(c, ledger, r, full, m, i, j);
      NewRowPage(c, ledger, r, full, m, i', j');
    }
    FlattenDistinct(a);
    var b := CanonicalRows(c.shared, c.tables[r], full, m);
    forall i, j, i', j' | 0 <= i < |b| && 0 <= j < |b[i]| && 0 <= i' < |b| && 0 <= j' < |b[i']| && b[i][j] == b[i'][j']
      ensures i == i' && j == j'
    {
      CanonicalRowPage(c, ledger, r, full, m, i, j);
      CanonicalRowPage(c, ledger, r, full, m, i', j');
      assert |full[..|c.tables[r].path| + i + 1]| == |full[..|c.tables[r].path| + i' + 1]|;
    }
    FlattenDistinct(b);
    var d := ReplacedRows(c.shared, c.tables[r], full, m);
    forall i, j, i', j' | 0 <= i < |d| && 0 <= j < |d[i]| && 0 <= i' < |d| && 0 <= j' < |d[i']| && d[i][j] == d[i'][j']
      ensures i == i' && j == j'
    {
      ReplacedRowPage(c, ledger, r, full, m, i, j);
      ReplacedRowPage(c, ledger, r, full, m, i', j');
    }
    FlattenDistinct(d);
  }

  ghost function PublishedPages(c: Cache, r: RequestId, full: Path, m: nat): PagesStep
    requires SharedShaped(c.shared) && r in c.tables && Publishable(c.shared, c.tables[r], full, m)
  {
    PublishPages(c.shared.pool, Flatten(NewRows(c.shared, c.tables[r], full, m)),
                 Flatten(CanonicalRows(c.shared, c.tables[r], full, m)), Flatten(ReplacedRows(c.shared, c.tables[r], full, m)))
  }

  lemma NewPagesRetainable(c: Cache, ledger: Ledger, r: RequestId, full: Path, m: nat)
    requires Publishing(c, ledger, r, full, m) && Publishable(c.shared, c.tables[r], full, m)
    ensures Retainable(c.shared.pool, Flatten(NewRows(c.shared, c.tables[r], full, m)))
  {
    PublishingBasics(c, ledger, r, full, m);
    var ids: seq<PageId> := Flatten(NewRows(c.shared, c.tables[r], full, m));
    hide Publishing, NewRows, Publishable, CacheOk, SharedShaped, IsSlot, PageAt;
    forall i | 0 <= i < |ids|
      ensures ids[i] < |c.shared.pool.states| && c.shared.pool.states[ids[i]].Retain().Ok?
    {
      NewMembers(c, ledger, r, full, m, ids[i]);
    }
  }

  lemma CanonicalPagesRetainable(c: Cache, ledger: Ledger, r: RequestId, full: Path, m: nat)
    requires Publishing(c, ledger, r, full, m) && Publishable(c.shared, c.tables[r], full, m) && SharedShaped(c.shared)
    ensures Retainable(c.shared.pool, Flatten(CanonicalRows(c.shared, c.tables[r], full, m)))
  {
    PublishingBasics(c, ledger, r, full, m);
    var ids: seq<PageId> := Flatten(CanonicalRows(c.shared, c.tables[r], full, m));
    assert |c.tables| <= MAX_READERS;
    hide Publishing, CanonicalRows, Publishable, CacheOk, SharedShaped, IsSlot, PageAt, Users;
    forall i | 0 <= i < |ids|
      ensures ids[i] < |c.shared.pool.states| && c.shared.pool.states[ids[i]].Retain().Ok?
    {
      CanonicalMembers(c, ledger, r, full, m, ids[i]);
      NotYetUser(c.tables, r, ledger[ids[i]].path);
      RoomForReader(c.tables, r, ledger[ids[i]].path);
    }
  }

  lemma NotYetUser(tables: map<RequestId, Table>, r: RequestId, q: Path)
    requires r in tables && |tables[r].path| < |q|
    ensures r !in Users(tables, q)
  {
  }

  lemma ReplacedPagesReleasable(c: Cache, ledger: Ledger, r: RequestId, full: Path, m: nat)
    requires Publishing(c, ledger, r, full, m) && Publishable(c.shared, c.tables[r], full, m) && SharedShaped(c.shared)
    ensures Releasable(c.shared.pool, Flatten(ReplacedRows(c.shared, c.tables[r], full, m)))
  {
    PublishingBasics(c, ledger, r, full, m);
    var ids: seq<PageId> := Flatten(ReplacedRows(c.shared, c.tables[r], full, m));
    hide Publishing, ReplacedRows, Publishable, CacheOk, SharedShaped, IsSlot, PageAt;
    forall i | 0 <= i < |ids|
      ensures ids[i] < |c.shared.pool.states| && c.shared.pool.states[ids[i]].Release().Ok?
    {
      ReplacedMembers(c, ledger, r, full, m, ids[i]);
    }
  }

  /** The pool side of a publication never fails, and moves each page by what its slot says. */
  lemma PublishedPagesOk(c: Cache, ledger: Ledger, r: RequestId, full: Path, m: nat)
    requires Publishing(c, ledger, r, full, m) && Publishable(c.shared, c.tables[r], full, m) && SharedShaped(c.shared)
    ensures var step := PublishedPages(c, r, full, m);
            && step.error == None && step.adopted && PoolOk(step.pool)
            && |step.pool.states| == |c.shared.pool.states| && step.pool.pages == c.shared.pool.pages
            && step.pool.pageTokens == c.shared.pool.pageTokens
            && forall p: PageId ::
                 if p in ledger then
                   && p < |c.shared.pool.states|
                   && StateAdvanced(c.shared.pool.states[p], step.pool.states[p], r, |c.tables[r].path|, full, m, ledger[p])
                 else p < |c.shared.pool.states| ==> step.pool.states[p] == c.shared.pool.states[p]
  {
    PublishingBasics(c, ledger, r, full, m);
    NewPagesRetainable(c, ledger, r, full, m);
    CanonicalPagesRetainable(c, ledger, r, full, m);
    ReplacedPagesReleasable(c, ledger, r, full, m);
    ListsDistinct(c, ledger, r, full, m);
    var a: seq<PageId> := Flatten(NewRows(c.shared, c.tables[r], full, m));
    var b: seq<PageId> := Flatten(CanonicalRows(c.shared, c.tables[r], full, m));
    var d: seq<PageId> := Flatten(ReplacedRows(c.shared, c.tables[r], full, m));
    var pool := c.shared.pool;
    assert PoolOk(pool);
    assert LedgerOk(c, ledger);
    assert forall p :: p in ledger ==> p < |pool.states|;
    assert forall p :: p in ledger && ledger[p].Pending? ==> pool.states[p] == PendingWrite;
    hide Publishing, Publishable, Consistent, LedgerOk, NewRows, CanonicalRows, ReplacedRows, PublishPages;
    forall p: PageId
      ensures p in a <==> p in ledger && BecomesIndexed(r, full, m, ledger[p])
      ensures p in b <==> p in ledger && Adopted(|c.tables[r].path|, full, ledger[p])
      ensures p in d <==> p in ledger && Replaced(r, m, ledger[p])
    {
      NewMembers(c, ledger, r, full, m, p);
      CanonicalMembers(c, ledger, r, full, m, p);
      ReplacedMembers(c, ledger, r, full, m, p);
    }
    ListsMoveStates(c.tables, ledger, r, full, m, pool, a, b, d);
  }

  lemma ListsMoveStates(tables: map<RequestId, Table>, ledger: Ledger, r: RequestId, full: Path, m: nat, pool: Pool,
                        a: seq<PageId>, b: seq<PageId>, d: seq<PageId>)
    requires r in tables && PoolOk(pool) && Distinct(a) && Distinct(b) && Distinct(d)
    requires Retainable(pool, a) && Retainable(pool, b) && Releasable(pool, d)
    requires forall p :: p in ledger ==> p < |pool.states|
    requires forall p :: p in ledger && ledger[p].Pending? ==> pool.states[p] == PendingWrite
    requires forall p: PageId :: p in a <==> p in ledger && BecomesIndexed(r, full, m, ledger[p])
    requires forall p: PageId :: p in b <==> p in ledger && Adopted(|tables[r].path|, full, ledger[p])
    requires forall p: PageId :: p in d <==> p in ledger && Replaced(r, m, ledger[p])
    ensures var step := PublishPages(pool, a, b, d);
            && step.error == None && step.adopted && PoolOk(step.pool)
            && |step.pool.states| == |pool.states| && step.pool.pages == pool.pages && step.pool.pageTokens == pool.pageTokens
            && forall p: PageId ::
                 if p in ledger then
                   && p < |pool.states|
                   && StateAdvanced(pool.states[p], step.pool.states[p], r, |tables[r].path|, full, m, ledger[p])
                 else p < |pool.states| ==> step.pool.states[p] == pool.states[p]
  {
    hide PublishPages, PoolOk;
    PublishPagesEffect(pool, a, b, d);
  }

  // ---- The index and table side --------------------------------------------------------------

  lemma NotIndexedYet(t: Trie, from: nat, full: Path, m: nat, q: Path)
    requires Branches(t, from, full, m) && q in NewPaths(full, m)
    ensures q !in t && q != [] && q <= full && m < |q| <= |full| && q == full[..|q|]
  {
    var k :| m < k <= |full| && q == full[..k];
    assert full[..k] !in t;
  }

  lemma TouchKeepsPages(t: Trie, path: Path, a: nat, b: nat, stamp: nat)
    ensures Touch(t, path, a, b, stamp).Keys == t.Keys
    ensures forall q :: q in t ==> Touch(t, path, a, b, stamp)[q].pages == t[q].pages
  {
  }

  lemma InsertedPages(t: Trie, full: Path, m: nat, columns: seq<seq<PageId>>, stamp: nat)
    requires m <= |full| <= |columns|
    ensures var t' := Insert(t, full, m, columns, stamp);
            && (forall q :: q in t' <==> q in t || q in NewPaths(full, m))
            && (forall q :: q in t && q !in NewPaths(full, m) ==> t'[q] == t[q])
            && (forall q :: q in NewPaths(full, m) ==> 0 < |q| <= |full| && t'[q].pages == columns[|q| - 1])
  {
  }

  lemma ColumnsAt(table: Table, n: nat, k: nat)
    requires k < n && forall l :: 0 <= l < |table.layers| ==> n <= |table.layers[l].pages|
    ensures Columns(table, n)[k] == Column(table, k)
  {
  }

  lemma InsertedTrieAdvanced(t: Trie, table: Table, full: Path, m: nat, clock: nat)
    requires Branches(t, |table.path|, full, m)
    requires forall l :: 0 <= l < |table.layers| ==> |full| <= |table.layers[l].pages|
    ensures TrieAdvanced(t, Insert(Touch(t, full, |table.path|, m, clock), full, m, Columns(table, |full|), clock), table, full, m)
  {
    hide Touch, Insert, NewPaths, Columns;
    var touched := Touch(t, full, |table.path|, m, clock);
    TouchKeepsPages(t, full, |table.path|, m, clock);
    InsertedPages(touched, full, m, Columns(table, |full|), clock);
    forall q | q in NewPaths(full, m)
      ensures q !in t && 0 < |q| <= |full| && Columns(table, |full|)[|q| - 1] == Column(table, |q| - 1)
    {
      NotIndexedYet(t, |table.path|, full, m, q);
      ColumnsAt(table, |full|, |q| - 1);
    }
    hide Branches, Column;
  }

  lemma PublishedTrieAdvanced(c: Cache, ledger: Ledger, r: RequestId, full: Path, m: nat)
    requires Publishing(c, ledger, r, full, m) && Publishable(c.shared, c.tables[r], full, m)
    ensures TrieAdvanced(c.shared.trie, PublishedTrie(c.shared, c.tables[r], full, m), c.tables[r], full, m)
  {
    PublishingBasics(c, ledger, r, full, m);
    hide Publishing, Consistent, SharedShaped, MatchFrom, TrieAdvanced;
    InsertedTrieAdvanced(c.shared.trie, c.tables[r], full, m, c.shared.clock);
  }

  lemma PublishedPathsOk(t: Trie, table: Table, full: Path, m: nat, clock: nat)
    requires PrefixClosed(t) && StampsOk(t, clock) && |table.path| <= m <= |full|
    requires m > 0 ==> full[..m] in t
    requires forall l :: 0 <= l < |table.layers| ==> |full| <= |table.layers[l].pages|
    ensures var t' := Insert(Touch(t, full, |table.path|, m, clock), full, m, Columns(table, |full|), clock);
            PrefixClosed(t') && StampsOk(t', clock + 1)
  {
    TouchKeepsTrie(t, full, |table.path|, m, clock);
    TouchKeepsPages(t, full, |table.path|, m, clock);
    InsertKeepsTrie(Touch(t, full, |table.path|, m, clock), full, m, Columns(table, |full|), clock);
  }

  lemma PublishedNodesShaped(s: Shared, table: Table, full: Path, m: nat)
    requires Publishable(s, table, full, m) && NodesShaped(s.trie, s.pool.pageTokens, s.layerCount)
    requires TrieAdvanced(s.trie, PublishedTrie(s, table, full, m), table, full, m)
    requires forall k :: 0 <= k < |full| ==> |full[k]| == s.pool.pageTokens
    ensures NodesShaped(PublishedTrie(s, table, full, m), s.pool.pageTokens, s.layerCount)
  {
    hide PublishedTrie, MatchFrom;
  }

  lemma PublishedTablePage(s: Shared, t: Table, full: Path, m: nat, l: nat, k: nat)
    requires SharedShaped(s) && Publishable(s, t, full, m) && l < |t.layers| && k < |t.layers[l].pages|
    ensures PublishedTable(s, t, full, m).layers[l].pages[k] ==
            if |t.path| <= k < m then s.trie[full[..k + 1]].pages[l] else t.layers[l].pages[k]
  {
  }

  lemma PublishedLayersAdvanced(s: Shared, t: Table, full: Path, m: nat)
    requires SharedShaped(s) && Publishable(s, t, full, m)
    ensures LayersAdvanced(t, PublishedTable(s, t, full, m), full, m)
  {
    var t' := PublishedTable(s, t, full, m);
    hide SharedShaped, PublishedTable;
    forall l | 0 <= l < |t.layers|
      ensures LayerAdvanced(t.layers[l], t'.layers[l], full, m)
    {
      forall i | m <= i < |t'.layers[l].pages|
        ensures t'.layers[l].pages[i] == t.layers[l].pages[i]
      {
        PublishedTablePage(s, t, full, m, l, i);
      }
    }
  }

  lemma PublishedTrieOk(c: Cache, ledger: Ledger, r: RequestId, full: Path, m: nat)
    requires Publishing(c, ledger, r, full, m) && Publishable(c.shared, c.tables[r], full, m)
    ensures var t' := PublishedTrie(c.shared, c.tables[r], full, m);
            && PrefixClosed(t') && StampsOk(t', c.shared.clock + 1)
            && NodesShaped(t', c.shared.pool.pageTokens, c.shared.layerCount)
  {
    PublishingBasics(c, ledger, r, full, m);
    PublishedTrieAdvanced(c, ledger, r, full, m);
    var t, table, clock := c.shared.trie, c.tables[r], c.shared.clock;
    assert PrefixClosed(t) && StampsOk(t, clock) && NodesShaped(t, c.shared.pool.pageTokens, c.shared.layerCount);
    assert forall k :: 0 <= k < |full| ==> |full[k]| == c.shared.pool.pageTokens;
    hide Publishing, Consistent, MatchFrom, NewPaths, PrefixClosed, StampsOk, NodesShaped;
    PublishedPathsOk(t, table, full, m, clock);
    PublishedNodesShaped(c.shared, table, full, m);
  }

  lemma PublishedTableOk(c: Cache, ledger: Ledger, r: RequestId, full: Path, m: nat, s': Shared)
    requires Publishing(c, ledger, r, full, m) && Publishable(c.shared, c.tables[r], full, m) && SharedShaped(c.shared)
    requires SharedShaped(s') && s'.layerCount == c.shared.layerCount && |s'.pool.states| == |c.shared.pool.states|
    requires s'.pool.pageTokens == c.shared.pool.pageTokens && s'.trie == PublishedTrie(c.shared, c.tables[r], full, m)
    ensures TableOk(s', PublishedTable(c.shared, c.tables[r], full, m))
  {
    PublishingBasics(c, ledger, r, full, m);
    PublishedTrieAdvanced(c, ledger, r, full, m);
    var t, t' := c.tables[r], PublishedTable(c.shared, c.tables[r], full, m);
    hide PublishedTrie, PublishedTable, Div, Mod, CeilDiv, PrefixClosed, StampsOk, FreeListExact;
    forall k | 0 < k <= |full|
      ensures full[..k] in s'.trie
    {
      if k > m { assert full[..k] in NewPaths(full, m); }
    }
    assert TableShaped(s', t') by {
      forall l, i | 0 <= l < |t'.layers| && 0 <= i < |t'.layers[l].pages|
        ensures t'.layers[l].pages[i] < |s'.pool.states|
      {
        PublishedTablePage(c.shared, t, full, m, l, i);
        if |t.path| <= i < m { CanonicalPage(c, ledger, r, full, m, l, i); }
      }
    }
    forall l | 0 <= l < s'.layerCount
      ensures LayerOk(s', t', l)
    {
      PublishedLayerOk(c, ledger, r, full, m, s', l);
    }
  }

  lemma RestoredPageIndexed(c: Cache, ledger: Ledger, r: RequestId, full: Path, m: nat, l: nat, k: nat)
    requires Publishing(c, ledger, r, full, m) && l < c.shared.layerCount && k < |c.tables[r].path| <= |full|
    ensures full[..k + 1] in c.shared.trie && l < |c.shared.trie[full[..k + 1]].pages|
    ensures l < |c.tables[r].layers| && k < |c.tables[r].layers[l].pages|
    ensures c.tables[r].layers[l].pages[k] == c.shared.trie[full[..k + 1]].pages[l]
  {
    PublishingBasics(c, ledger, r, full, m);
    hide LedgerOk, PrefixClosed, StampsOk, FreeListExact;
    assert full[..k + 1] == c.tables[r].path[..k + 1];
    assert LayerOk(c.shared, c.tables[r], l);
  }

  lemma NewNodePages(t: Trie, t': Trie, table: Table, full: Path, m: nat, l: nat, k: nat)
    requires TrieAdvanced(t, t', table, full, m) && m <= k < |full| && l < |table.layers| && k < |table.layers[l].pages|
    ensures full[..k + 1] in t' && l < |t'[full[..k + 1]].pages|
    ensures t'[full[..k + 1]].pages[l] == table.layers[l].pages[k]
  {
    var q := full[..k + 1];
    assert q in NewPaths(full, m);
    assert NodeFromTable(t'[q], table, q);
  }

  lemma OldNodePages(t: Trie, t': Trie, table: Table, full: Path, m: nat, q: Path)
    requires TrieAdvanced(t, t', table, full, m) && q in t
    ensures q in t' && t'[q].pages == t[q].pages
  {
  }

  /** Up to the new cursor the request's pages are those of the indexed blocks. */
  lemma PublishedPageIndexed(c: Cache, ledger: Ledger, r: RequestId, full: Path, m: nat, t': Trie, l: nat, k: nat)
    requires Publishing(c, ledger, r, full, m) && Publishable(c.shared, c.tables[r], full, m) && SharedShaped(c.shared)
    requires l < c.shared.layerCount && k < |full| && TrieAdvanced(c.shared.trie, t', c.tables[r], full, m)
    ensures k < |PublishedTable(c.shared, c.tables[r], full, m).layers[l].pages|
    ensures full[..k + 1] in t' && l < |t'[full[..k + 1]].pages|
    ensures PublishedTable(c.shared, c.tables[r], full, m).layers[l].pages[k] == t'[full[..k + 1]].pages[l]
  {
    PublishingBasics(c, ledger, r, full, m);
    hide PublishedTable, Consistent, Branches, Publishing, SharedShaped, Publishable;
    PublishedTablePage(c.shared, c.tables[r], full, m, l, k);
    if k >= m {
      OwnPage(c, ledger, r, full, m, l, k);
      NewNodePages(c.shared.trie, t', c.tables[r], full, m, l, k);
    } else {
      if k >= |c.tables[r].path| { CanonicalPage(c, ledger, r, full, m, l, k); } else { RestoredPageIndexed(c, ledger, r, full, m, l, k); }
      OldNodePages(c.shared.trie, t', c.tables[r], full, m, full[..k + 1]);
    }
  }

  lemma PublishedLayerOk(c: Cache, ledger: Ledger, r: RequestId, full: Path, m: nat, s': Shared, l: nat)
    requires Publishing(c, ledger, r, full, m) && Publishable(c.shared, c.tables[r], full, m) && SharedShaped(c.shared)
    requires SharedShaped(s') && s'.layerCount == c.shared.layerCount && l < s'.layerCount
    requires s'.pool.pageTokens == c.shared.pool.pageTokens && s'.trie == PublishedTrie(c.shared, c.tables[r], full, m)
    requires var t' := PublishedTable(c.shared, c.tables[r], full, m); TableShaped(s', t') && MatchIndexed(s', t'.path)
    ensures LayerOk(s', PublishedTable(c.shared, c.tables[r], full, m), l)
  {
    PublishingBasics(c, ledger, r, full, m);
    PublishedTrieAdvanced(c, ledger, r, full, m);
    var t, t' := c.tables[r], PublishedTable(c.shared, c.tables[r], full, m);
    assert LayerOk(c.shared, t, l);
    assert |full| <= Div(t.layers[l].count, c.shared.pool.pageTokens);
    hide PublishedTrie, PublishedTable, Div, Mod, CeilDiv, Consistent, Publishing, TrieAdvanced, Branches, Publishable;
    forall k | 0 <= k < |full|
      ensures t'.layers[l].pages[k] == s'.trie[full[..k + 1]].pages[l]
    {
      PublishedPageIndexed(c, ledger, r, full, m, s'.trie, l, k);
    }
  }

  lemma CommitCacheOk(c: Cache, ledger: Ledger, r: RequestId, full: Path, m: nat)
    requires Publishing(c, ledger, r, full, m) && Publishable(c.shared, c.tables[r], full, m) && SharedShaped(c.shared)
    ensures CacheOk(Applied(c, r, CommitPublication(c.shared, c.tables[r], full, m)))
  {
    PublishingBasics(c, ledger, r, full, m);
    PublishedPagesOk(c, ledger, r, full, m);
    PublishedTrieOk(c, ledger, r, full, m);
    PublishedTrieAdvanced(c, ledger, r, full, m);
    var c' := Applied(c, r, CommitPublication(c.shared, c.tables[r], full, m));
    assert c.shared.enabled;
    hide Publishable, LedgerOk, PublishPages, PublishedTrie, PublishedTable, FreeListExact, Branches;
    assert SharedOk(c'.shared);
    PublishedTableOk(c, ledger, r, full, m, c'.shared);
    assert c'.tables.Keys == c.tables.Keys;
    hide Publishing, PrefixClosed, StampsOk;
    forall x | x in c'.tables
      ensures TableOk(c'.shared, c'.tables[x])
    {
      if x != r { TableOkTransfer(c.shared, c'.shared, c.tables[x]); }
    }
  }

  lemma CommitIsAdvance(c: Cache, ledger: Ledger, r: RequestId, full: Path, m: nat)
    requires Publishing(c, ledger, r, full, m) && Publishable(c.shared, c.tables[r], full, m) && SharedShaped(c.shared)
    ensures AdvanceStep(c, ledger, Applied(c, r, CommitPublication(c.shared, c.tables[r], full, m)), r, full, m)
  {
    PublishingBasics(c, ledger, r, full, m);
    PublishedPagesOk(c, ledger, r, full, m);
    PublishedTrieAdvanced(c, ledger, r, full, m);
    PublishedLayersAdvanced(c.shared, c.tables[r], full, m);
    hide CacheOk, LedgerOk, Consistent, PublishPages, PublishedTrie, PublishedTable, Branches, StateAdvanced, SharedShaped, Publishing, TrieAdvanced,
         LayersAdvanced, NewRows, CanonicalRows, ReplacedRows;
  }

  /** A publication succeeds and writes no page. */
  lemma CommitWritesNothing(c: Cache, ledger: Ledger, r: RequestId, full: Path, m: nat)
    requires Publishing(c, ledger, r, full, m) && Publishable(c.shared, c.tables[r], full, m) && SharedShaped(c.shared)
    ensures var step := CommitPublication(c.shared, c.tables[r], full, m);
            && step.result.Ok? && step.shared.pool.pages == c.shared.pool.pages
            && step.shared.pool.pageTokens == c.shared.pool.pageTokens
  {
    PublishingBasics(c, ledger, r, full, m);
    PublishedPagesOk(c, ledger, r, full, m);
    hide CacheOk, LedgerOk, Consistent, PublishPages, PublishedTrie, PublishedTable, Branches, SharedShaped, Publishing;
  }

  // ---- The operation -------------------------------------------------------------------------

  lemma CompletedBlocks(c: Cache, r: RequestId, tokens: seq<Token>)
    requires CacheOk(c) && r in c.tables && BlocksComplete(c.shared, c.tables[r]) && CachedCount(c.tables[r]) <= |tokens|
    ensures var t := c.tables[r];
            var blocks := Blocks(tokens[..CachedCount(t)], c.shared.pool.pageTokens);
            && |t.path| <= |blocks| && |t.layers| == c.shared.layerCount
            && (forall l :: 0 <= l < |t.layers| ==>
                 |blocks| <= Div(t.layers[l].count, c.shared.pool.pageTokens) <= |t.layers[l].pages|)
            && (forall k :: 0 <= k < |blocks| ==> |blocks[k]| == c.shared.pool.pageTokens)
            && (forall k :: 0 <= k < |t.path| ==> |t.path[k]| == c.shared.pool.pageTokens)
  {
    var t, size := c.tables[r], c.shared.pool.pageTokens;
    hide PrefixClosed, StampsOk, FreeListExact, Div, Mod, CeilDiv, Blocks;
    BlocksShape(tokens[..CachedCount(t)], size);
    assert LayerOk(c.shared, t, 0);
    forall l | 0 <= l < |t.layers|
      ensures Div(CachedCount(t), size) <= Div(t.layers[l].count, size) <= |t.layers[l].pages|
    {
      assert LayerOk(c.shared, t, l);
      CeilDivBounds(t.layers[l].count, size);
    }
    if t.path != [] {
      assert t.path[..|t.path|] == t.path && t.path in c.shared.trie;
    }
  }

  lemma BeginsPublishing(c: Cache, ledger: Ledger, r: RequestId, tokens: seq<Token>)
    requires Consistent(c, ledger) && r in c.tables && BlocksComplete(c.shared, c.tables[r]) && CachedCount(c.tables[r]) <= |tokens|
    requires c.shared.enabled
    ensures |c.tables[r].path| <= |Blocks(tokens[..CachedCount(c.tables[r])], c.shared.pool.pageTokens)|
    ensures var full := PublishedPath(c.shared, c.tables[r], tokens);
            |c.tables[r].path| <= |full| && Publishing(c, ledger, r, full, MatchFrom(c.shared.trie, full, |c.tables[r].path|))
  {
    CompletedBlocks(c, r, tokens);
    var t := c.tables[r];
    var full := PublishedPath(c.shared, t, tokens);
    var m := MatchFrom(c.shared.trie, full, |t.path|);
    assert full[..|t.path|] == t.path;
    if t.path != [] { assert t.path[..|t.path|] == t.path && t.path in c.shared.trie; }
    assert PrefixClosed(c.shared.trie);
    hide CacheOk, LedgerOk, Blocks, Div, Mod, CeilDiv;
    MatchFromIsLongest(c.shared.trie, full, |t.path|);
    MatchedFromIndexed(c.shared.trie, full, |t.path|);
    hide PrefixClosed;
  }

  lemma PublishComputes(c: Cache, ledger: Ledger, r: RequestId, tokens: seq<Token>)
    requires Consistent(c, ledger) && r in c.tables && BlocksComplete(c.shared, c.tables[r]) && CachedCount(c.tables[r]) <= |tokens|
    requires c.shared.enabled
    ensures |c.tables[r].path| <= |Blocks(tokens[..CachedCount(c.tables[r])], c.shared.pool.pageTokens)|
    ensures var full := PublishedPath(c.shared, c.tables[r], tokens);
            && |c.tables[r].path| <= |full|
            && var m := MatchFrom(c.shared.trie, full, |c.tables[r].path|);
               && Publishing(c, ledger, r, full, m)
               && Publishable(c.shared, c.tables[r], full, m)
               && Publish(c.shared, c.tables[r], tokens) == CommitPublication(c.shared, c.tables[r], full, m)
  {
    BeginsPublishing(c, ledger, r, tokens);
    CompletedBlocks(c, r, tokens);
    var full := PublishedPath(c.shared, c.tables[r], tokens);
    var m := MatchFrom(c.shared.trie, full, |c.tables[r].path|);
    PublishingBasics(c, ledger, r, full, m);
    hide Publishing, Consistent, CommitPublication, Blocks, Div, Mod, CeilDiv;
    assert m > 0 ==> full[..m] in c.shared.trie;
  }

  /** A publication reports the tokens of the blocks it adds to the index. */
  lemma PublishReports(c: Cache, ledger: Ledger, r: RequestId, tokens: seq<Token>)
    requires Consistent(c, ledger) && r in c.tables && BlocksComplete(c.shared, c.tables[r]) && CachedCount(c.tables[r]) <= |tokens|
    ensures var step := Publish(c.shared, c.tables[r], tokens);
            && |step.shared.trie| >= |c.shared.trie|
            && step.result == Ok((|step.shared.trie| - |c.shared.trie|) * c.shared.pool.pageTokens)
  {
    hide LedgerOk, PrefixClosed, StampsOk, FreeListExact, TableOk, Publishing, CommitPublication, Blocks, BlocksComplete;
    if c.shared.enabled {
      PublishComputes(c, ledger, r, tokens);
      var full := PublishedPath(c.shared, c.tables[r], tokens);
      var m := MatchFrom(c.shared.trie, full, |c.tables[r].path|);
      PublishingBasics(c, ledger, r, full, m);
      CommitReports(c, ledger, r, full, m);
    }
  }

  lemma CommitReports(c: Cache, ledger: Ledger, r: RequestId, full: Path, m: nat)
    requires Publishing(c, ledger, r, full, m) && Publishable(c.shared, c.tables[r], full, m) && SharedShaped(c.shared)
    ensures var step := CommitPublication(c.shared, c.tables[r], full, m);
            && |step.shared.trie| >= |c.shared.trie|
            && step.result == Ok((|step.shared.trie| - |c.shared.trie|) * c.shared.pool.pageTokens)
  {
    PublishingBasics(c, ledger, r, full, m);
    CommitWritesNothing(c, ledger, r, full, m);
    AddedBlocks(c.shared, c.tables[r], full, m);
    hide CacheOk, LedgerOk, Consistent, PublishPages, PublishedTrie, PublishedTable, Branches, SharedShaped, Publishing, Publishable;
  }

  lemma AddedBlocks(s: Shared, t: Table, full: Path, m: nat)
    requires Publishable(s, t, full, m) && Branches(s.trie, |t.path|, full, m)
    ensures |PublishedTrie(s, t, full, m)| == |s.trie| + |full| - m
  {
    hide Insert, Column;
    var touched := Touch(s.trie, full, |t.path|, m, s.clock);
    assert touched.Keys == s.trie.Keys && |touched| == |touched.Keys|;
    hide Touch;
    InsertCount(touched, full, m, Columns(t, |full|), s.clock);
  }

  /** Publishing a request whose layers have the first one's complete blocks never fails: the cursor's block is still indexed, its
      pages are in the request's tables, and there is room for every reader. The cursor moves to the
      last complete block, blocks already indexed are shared and the rest of the path is added. No
      other view changes and the cache stays consistent. */
  lemma PublishExact(c: Cache, ledger: Ledger, r: RequestId, tokens: seq<Token>) returns (ledger': Ledger)
    requires Consistent(c, ledger) && r in c.tables && BlocksComplete(c.shared, c.tables[r])
    ensures var step := Publish(c.shared, c.tables[r], tokens);
            var c' := Applied(c, r, step);
            var count := CachedCount(c.tables[r]);
            && Consistent(c', ledger')
            && (!c.shared.enabled ==> step.result == Ok(0) && c' == c)
            && (c.shared.enabled && |tokens| < count ==> step.result == Err(TooFewTokens) && c' == c)
            && (c.shared.enabled && count <= |tokens| ==>
                  && |c.tables[r].path| <= |Blocks(tokens[..count], c.shared.pool.pageTokens)|
                  && var full := PublishedPath(c.shared, c.tables[r], tokens);
                     && step.result.Ok? && step.table.path == full && |c.tables[r].path| <= |full|
                     && full in c'.shared.trie.Keys + {[]}
                     && var m := MatchFrom(c.shared.trie, full, |c.tables[r].path|);
                        && TrieAdvanced(c.shared.trie, c'.shared.trie, c.tables[r], full, m)
                        && LayersAdvanced(c.tables[r], step.table, full, m)
                        && Branches(c.shared.trie, |c.tables[r].path|, full, m))
            && |step.table.layers| == |c.tables[r].layers|
            && (forall l :: 0 <= l < |step.table.layers| ==> step.table.layers[l].count == c.tables[r].layers[l].count)
            && (forall x, l: nat :: x != r ==> ViewKept(c, c', x, l))
            && c'.shared.pool.pages == c.shared.pool.pages
  {
    var step := Publish(c.shared, c.tables[r], tokens);
    var c' := Applied(c, r, step);
    if c.shared.enabled && CachedCount(c.tables[r]) <= |tokens| {
      PublishComputes(c, ledger, r, tokens);
      var full := PublishedPath(c.shared, c.tables[r], tokens);
      var m := MatchFrom(c.shared.trie, full, |c.tables[r].path|);
      CommittedExact(c, ledger, r, full, m);
      AdvanceKeepsConsistent(c, ledger, c', r, full, m);
      ledger' := AdvancedLedger(ledger, r, full, m);
      hide Publish, LedgerOk, PrefixClosed, StampsOk, FreeListExact, TableOk, AdvanceStep, Publishing, TrieAdvanced, LayersAdvanced,
           Branches, CommitPublication, Publishable, PublishedPath;
      forall x, l: nat | x != r ensures ViewKept(c, c', x, l) { UntouchedView(c, c', x, l); }
    } else {
      hide LedgerOk, PrefixClosed, StampsOk, FreeListExact;
      ledger' := ledger;
      assert c.tables[r := c.tables[r]] == c.tables;
      SamePagesSameViews(c, c');
    }
  }

  /** A publication that succeeds keeps the cache in order if and only if every layer has the first one's
      complete blocks: otherwise it indexes a page whose block is not all there. */
  lemma PublishKeepsInvIff(c: Cache, r: RequestId, tokens: seq<Token>)
    requires Inv(c) && r in c.tables
    ensures SharedShaped(c.shared) && TableShaped(c.shared, c.tables[r])
    ensures var step := Publish(c.shared, c.tables[r], tokens);
            c.shared.enabled && step.result.Ok? ==> (Inv(Applied(c, r, step)) <==> BlocksComplete(c.shared, c.tables[r]))
  {
    var ledger: Ledger :| Consistent(c, ledger);
    TableNotEmpty(c, r);
    assert SharedShaped(c.shared) && TableShaped(c.shared, c.tables[r]);
    hide CacheOk, LedgerOk, Publish, BlocksComplete, SharedShaped, TableShaped, Applied;
    var step := Publish(c.shared, c.tables[r], tokens);
    if c.shared.enabled && step.result.Ok? {
      if BlocksComplete(c.shared, c.tables[r]) {
        var _ := PublishExact(c, ledger, r, tokens);
      } else {
        var c' := Applied(c, r, step);
        var l := LayerBehind(c.shared, c.tables[r]);
        SucceededPath(c, r, tokens);
        if Inv(c') {
          var ledger': Ledger :| Consistent(c', ledger');
          PathWithinLayer(c', r, l);
        }
      }
    }
  }

  lemma LayerBehind(s: Shared, t: Table) returns (l: nat)
    requires s.pool.pageTokens > 0 && !BlocksComplete(s, t)
    ensures l < |t.layers| && Div(t.layers[l].count, s.pool.pageTokens) < Div(CachedCount(t), s.pool.pageTokens)
  {
    hide Div;
    l :| 0 <= l < |t.layers| && !(Div(CachedCount(t), s.pool.pageTokens) <= Div(t.layers[l].count, s.pool.pageTokens));
  }

  /** A successful publication moves the cursor to the first layer's last complete block. */
  lemma SucceededPath(c: Cache, r: RequestId, tokens: seq<Token>)
    requires r in c.tables && SharedShaped(c.shared) && TableShaped(c.shared, c.tables[r]) && c.shared.pool.pageTokens > 0
    requires c.shared.enabled && Publish(c.shared, c.tables[r], tokens).result.Ok?
    ensures var c' := Applied(c, r, Publish(c.shared, c.tables[r], tokens));
            && r in c'.tables && c'.shared.pool.pageTokens == c.shared.pool.pageTokens && |c'.tables[r].layers| == |c.tables[r].layers|
            && |c'.tables[r].path| == Div(CachedCount(c.tables[r]), c.shared.pool.pageTokens)
            && forall l :: 0 <= l < |c'.tables[r].layers| ==> c'.tables[r].layers[l].count == c.tables[r].layers[l].count
  {
    hide Blocks, Div, Mod, CommitPublication, MatchFrom;
    var s, t := c.shared, c.tables[r];
    var blocks := Blocks(tokens[..CachedCount(t)], s.pool.pageTokens);
    BlocksShape(tokens[..CachedCount(t)], s.pool.pageTokens);
    var full := t.path + blocks[|t.path|..];
    assert |full| == |blocks|;
    MatchedFromIndexed(s.trie, full, |t.path|);
    CommitPath(s, t, full, MatchFrom(s.trie, full, |t.path|));
  }

  lemma CommitPath(s: Shared, t: Table, full: Path, m: nat)
    requires SharedShaped(s) && Publishable(s, t, full, m) && CommitPublication(s, t, full, m).result.Ok?
    ensures var step := CommitPublication(s, t, full, m);
            && step.table.path == full && step.shared.pool.pageTokens == s.pool.pageTokens && |step.table.layers| == |t.layers|
            && forall l :: 0 <= l < |t.layers| ==> step.table.layers[l].count == t.layers[l].count
  {
    hide RetainAll, ReleaseAll, NewRows, CanonicalRows, ReplacedRows, Flatten, PublishedTrie, PublishedTable, SharedShaped, Publishable;
    PublishPagesSizes(s.pool, Flatten(NewRows(s, t, full, m)), Flatten(CanonicalRows(s, t, full, m)), Flatten(ReplacedRows(s, t, full, m)));
  }

  lemma CommittedExact(c: Cache, ledger: Ledger, r: RequestId, full: Path, m: nat)
    requires Publishing(c, ledger, r, full, m) && Publishable(c.shared, c.tables[r], full, m) && SharedShaped(c.shared)
    ensures var step := CommitPublication(c.shared, c.tables[r], full, m);
            var c' := Applied(c, r, step);
            && AdvanceStep(c, ledger, c', r, full, m) && CacheOk(c') && step.result.Ok?
            && c'.shared.pool.pages == c.shared.pool.pages && c'.shared.pool.pageTokens == c.shared.pool.pageTokens
            && c'.shared.layerCount == c.shared.layerCount && step.table.path == full && r in c.tables
            && |step.table.layers| == |c.tables[r].layers|
            && (forall l :: 0 <= l < |step.table.layers| ==> step.table.layers[l].count == c.tables[r].layers[l].count)
            && TrieAdvanced(c.shared.trie, c'.shared.trie, c.tables[r], full, m)
            && LayersAdvanced(c.tables[r], step.table, full, m)
            && Branches(c.shared.trie, |c.tables[r].path|, full, m)
            && full in c'.shared.trie.Keys + {[]}
  {
    CommitCacheOk(c, ledger, r, full, m);
    CommitIsAdvance(c, ledger, r, full, m);
    CommitWritesNothing(c, ledger, r, full, m);
    PublishingBasics(c, ledger, r, full, m);
    var c' := Applied(c, r, CommitPublication(c.shared, c.tables[r], full, m));
    PublishedPagesOk(c, ledger, r, full, m);
    hide Publishing, CacheOk, LedgerOk, Consistent, LayersAdvanced, Publishable, PublishPages, NewRows, ReplacedRows, CanonicalRows;
    assert full[..|full|] == full;
    if |full| > m { assert full in NewPaths(full, m); }
  }
}
