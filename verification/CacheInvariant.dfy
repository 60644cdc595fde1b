/** What holds of the whole cache between operations. Every allocated page has one slot, either
    a layer of an indexed block or a not yet published position of one request's table, and the
    ledger maps each page to its slot. */
module CacheInvariant {
  import opened Common
  import opened Arithmetic
  import opened PagePool
  import opened PrefixTrie
  import opened PagedCacheSpec

  datatype Cache = Cache(shared: Shared, tables: map<RequestId, Table>)

  datatype Slot =
    | Indexed(path: Path, layer: nat)
    | Pending(request: RequestId, layer: nat, index: nat)

  type Ledger = map<PageId, Slot>

  /** The requests whose publication cursor lies at or below an indexed block. */
  function Users(tables: map<RequestId, Table>, q: Path): set<RequestId> {
    set r | r in tables && q <= tables[r].path
  }

  ghost predicate LayerOk(s: Shared, t: Table, l: nat)
    requires SharedShaped(s) && TableShaped(s, t) && MatchIndexed(s, t.path) && l < s.layerCount
  {
    var layer := t.layers[l];
    && |layer.pages| == CeilDiv(layer.count, s.pool.pageTokens)
    && |t.path| <= Div(layer.count, s.pool.pageTokens) && |t.path| <= |layer.pages|
    && forall k :: 0 <= k < |t.path| ==> layer.pages[k] == s.trie[t.path[..k + 1]].pages[l]
  }

  /** A table holds exactly the pages its token counts need, and up to its cursor these are the
      canonical pages of indexed blocks. */
  ghost predicate TableOk(s: Shared, t: Table)
    requires SharedShaped(s)
  {
    && TableShaped(s, t) && MatchIndexed(s, t.path)
    && forall l :: 0 <= l < s.layerCount ==> LayerOk(s, t, l)
  }

  ghost predicate SharedOk(s: Shared) {
    && SharedShaped(s) && PoolOk(s.pool)
    && PrefixClosed(s.trie) && StampsOk(s.trie, s.clock)
    && (!s.enabled ==> s.trie == map[])
  }

  ghost predicate CacheOk(c: Cache) {
    && SharedOk(c.shared)
    && |c.tables| <= MAX_READERS
    && forall r :: r in c.tables ==> TableOk(c.shared, c.tables[r])
  }

  /** A request's path never runs ahead of any of its layers. */
  lemma PathWithinLayer(c: Cache, r: RequestId, l: nat)
    requires CacheOk(c) && r in c.tables && l < |c.tables[r].layers|
    ensures c.shared.pool.pageTokens > 0 && |c.tables[r].path| <= Div(c.tables[r].layers[l].count, c.shared.pool.pageTokens)
    ensures |c.tables[r].layers| == c.shared.layerCount > 0
  {
    assert LayerOk(c.shared, c.tables[r], l);
  }

  lemma PageTokensPositive(c: Cache)
    requires CacheOk(c)
    ensures c.shared.pool.pageTokens > 0
  {
  }

  lemma BlocksNotEmpty(c: Cache)
    requires CacheOk(c)
    ensures forall q :: q in c.shared.trie ==> q != []
  {
  }

  lemma TableNotEmpty(c: Cache, r: RequestId)
    requires CacheOk(c) && r in c.tables
    ensures |c.tables[r].layers| == c.shared.layerCount > 0 && c.shared.pool.pageTokens > 0
  {
  }

  ghost predicate IsSlot(c: Cache, o: Slot) {
    match o
    case Indexed(q, l) => q in c.shared.trie && l < |c.shared.trie[q].pages|
    case Pending(r, l, i) =>
      && r in c.tables && l < |c.tables[r].layers|
      && |c.tables[r].path| <= i < |c.tables[r].layers[l].pages|
  }

  ghost function PageAt(c: Cache, o: Slot): PageId
    requires IsSlot(c, o)
  {
    match o
    case Indexed(q, l) => c.shared.trie[q].pages[l]
    case Pending(r, l, i) => c.tables[r].layers[l].pages[i]
  }

  /** The page state that encodes an owner count: `readers` request tables, plus the index. */
  function IndexedState(readers: nat): PageState {
    if readers == 0 then WrittenNotInUse else WrittenInUse(readers)
  }

  ghost function StateOf(tables: map<RequestId, Table>, o: Slot): PageState {
    match o
    case Indexed(q, _) => IndexedState(|Users(tables, q)|)
    case Pending(_, _, _) => PendingWrite
  }

  ghost predicate LedgerOk(c: Cache, ledger: Ledger) {
    && (forall o :: IsSlot(c, o) ==> PageAt(c, o) in ledger && ledger[PageAt(c, o)] == o)
    && (forall p :: p in ledger ==>
         && p < |c.shared.pool.states| && IsSlot(c, ledger[p]) && PageAt(c, ledger[p]) == p
         && c.shared.pool.states[p] == StateOf(c.tables, ledger[p]))
    && (forall p: PageId :: p < |c.shared.pool.states| && p !in ledger ==> c.shared.pool.states[p] == Unallocated)
  }

  ghost predicate SlotRecorded(c: Cache, ledger: Ledger, o: Slot) {
    IsSlot(c, o) ==> PageAt(c, o) in ledger && ledger[PageAt(c, o)] == o
  }

  ghost predicate PageAccounted(c: Cache, ledger: Ledger, p: PageId) {
    if p in ledger then
      && p < |c.shared.pool.states| && IsSlot(c, ledger[p]) && PageAt(c, ledger[p]) == p
      && c.shared.pool.states[p] == StateOf(c.tables, ledger[p])
    else p < |c.shared.pool.states| ==> c.shared.pool.states[p] == Unallocated
  }

  /** The ledger is in order when each slot and each page is. */
  lemma LedgerFromParts(c: Cache, ledger: Ledger)
    requires forall o :: SlotRecorded(c, ledger, o)
    requires forall p: PageId :: PageAccounted(c, ledger, p)
    ensures LedgerOk(c, ledger)
  {
    hide Users;
    forall o | IsSlot(c, o)
      ensures PageAt(c, o) in ledger && ledger[PageAt(c, o)] == o
    {
      assert SlotRecorded(c, ledger, o);
    }
    forall p: PageId
      ensures p in ledger ==>
                && p < |c.shared.pool.states| && IsSlot(c, ledger[p]) && PageAt(c, ledger[p]) == p
                && c.shared.pool.states[p] == StateOf(c.tables, ledger[p])
      ensures p < |c.shared.pool.states| && p !in ledger ==> c.shared.pool.states[p] == Unallocated
    {
      assert PageAccounted(c, ledger, p);
    }
  }

  ghost predicate Consistent(c: Cache, ledger: Ledger) { CacheOk(c) && LedgerOk(c, ledger) }

  ghost predicate Inv(c: Cache) { exists ledger :: Consistent(c, ledger) }

  /** A table stays in order when its blocks keep their pages. */
  lemma TableOkTransfer(s: Shared, s': Shared, t: Table)
    requires SharedShaped(s) && SharedShaped(s') && TableOk(s, t)
    requires s'.layerCount == s.layerCount && s'.pool.pageTokens == s.pool.pageTokens
    requires |s'.pool.states| == |s.pool.states|
    requires forall k :: 0 < k <= |t.path| ==> t.path[..k] in s'.trie && s'.trie[t.path[..k]].pages == s.trie[t.path[..k]].pages
    ensures TableOk(s', t)
  {
    forall l | 0 <= l < s'.layerCount
      ensures LayerOk(s', t, l)
    {
      assert LayerOk(s, t, l);
    }
  }

  // ---- Exact owner counts --------------------------------------------------------------------

  /** Every place of every request's tables that holds page p. */
  ghost function Occurrences(c: Cache, p: PageId): set<(RequestId, nat, nat)>
    requires CacheOk(c)
  {
    set r, l, i | r in c.tables && 0 <= l < c.shared.layerCount && 0 <= i < |c.tables[r].layers[l].pages| &&
                  c.tables[r].layers[l].pages[i] == p :: (r, l, i)
  }

  ghost predicate IsIndexed(c: Cache, p: PageId)
    requires CacheOk(c)
  {
    exists q :: q in c.shared.trie && p in c.shared.trie[q].pages
  }

  /** The page state that stands for `readers` table entries, with or without an index entry. */
  function OwnershipState(readers: nat, indexed: bool): PageState {
    if indexed then IndexedState(readers) else if readers == 0 then Unallocated else PendingWrite
  }

  /** After every operation a page's state is exactly its owner count: the table entries holding it,
      over all requests and layers, plus its index entry. A page outside the index has at most one
      owner, and the free list holds exactly the pages with none, each once. */
  lemma OwnershipIsExact(c: Cache, p: PageId)
    requires Inv(c) && p < |c.shared.pool.states|
    ensures c.shared.pool.states[p] == OwnershipState(|Occurrences(c, p)|, IsIndexed(c, p))
    ensures !IsIndexed(c, p) ==> |Occurrences(c, p)| <= 1
    ensures Distinct(c.shared.pool.free)
    ensures p in c.shared.pool.free <==> Occurrences(c, p) == {} && !IsIndexed(c, p)
  {
    hide PrefixClosed, StampsOk, NodesShaped;
    var ledger: Ledger :| Consistent(c, ledger);
    if p !in ledger {
      FreePageHasNoOwner(c, ledger, p);
    } else if ledger[p].Indexed? {
      OccurrencesOfIndexed(c, ledger, p, ledger[p].path, ledger[p].layer);
      assert IsIndexed(c, p);
    } else {
      PendingPageHasOneOwner(c, ledger, p);
    }
  }

  lemma OccurrenceInLedger(c: Cache, ledger: Ledger, p: PageId, r: RequestId, l: nat, i: nat)
    requires Consistent(c, ledger) && (r, l, i) in Occurrences(c, p)
    ensures p in ledger && ledger[p] == OccurrenceSlot(c, r, l, i)
  {
    assert PageAt(c, OccurrenceSlot(c, r, l, i)) == p;
  }

  lemma IndexedInLedger(c: Cache, ledger: Ledger, p: PageId)
    requires Consistent(c, ledger) && IsIndexed(c, p)
    ensures p in ledger && ledger[p].Indexed?
  {
    var q :| q in c.shared.trie && p in c.shared.trie[q].pages;
    var l :| 0 <= l < |c.shared.trie[q].pages| && c.shared.trie[q].pages[l] == p;
    assert IsSlot(c, Indexed(q, l)) && PageAt(c, Indexed(q, l)) == p;
  }

  lemma FreePageHasNoOwner(c: Cache, ledger: Ledger, p: PageId)
    requires Consistent(c, ledger) && p !in ledger
    ensures Occurrences(c, p) == {} && !IsIndexed(c, p)
  {
    if IsIndexed(c, p) { IndexedInLedger(c, ledger, p); }
    forall o | o in Occurrences(c, p) { OccurrenceInLedger(c, ledger, p, o.0, o.1, o.2); }
  }

  lemma PendingPageHasOneOwner(c: Cache, ledger: Ledger, p: PageId)
    requires Consistent(c, ledger) && p in ledger && ledger[p].Pending?
    ensures |Occurrences(c, p)| == 1 && !IsIndexed(c, p)
  {
    if IsIndexed(c, p) { IndexedInLedger(c, ledger, p); }
    var own := ledger[p];
    assert PageAt(c, own) == p;
    forall o | o in Occurrences(c, p)
      ensures o == (own.request, own.layer, own.index)
    {
      OccurrenceInLedger(c, ledger, p, o.0, o.1, o.2);
    }
    assert Occurrences(c, p) == {(own.request, own.layer, own.index)};
  }

  ghost function OccurrenceSlot(c: Cache, r: RequestId, l: nat, i: nat): (o: Slot)
    requires CacheOk(c) && r in c.tables && l < c.shared.layerCount && i < |c.tables[r].layers[l].pages|
    ensures IsSlot(c, o) && PageAt(c, o) == c.tables[r].layers[l].pages[i]
  {
    assert LayerOk(c.shared, c.tables[r], l);
    if i < |c.tables[r].path| then Indexed(c.tables[r].path[..i + 1], l) else Pending(r, l, i)
  }

  lemma IndexedPath(c: Cache, ledger: Ledger, p: PageId, q: Path, l: nat)
    requires Consistent(c, ledger) && p in ledger && ledger[p] == Indexed(q, l)
    ensures q in c.shared.trie && q != []
  {
  }

  /** An indexed page occurs once in the tables of each user of its block, always in its own layer
      and at its own depth. */
  lemma OccurrencesOfIndexed(c: Cache, ledger: Ledger, p: PageId, q: Path, l: nat)
    requires Consistent(c, ledger) && p in ledger && ledger[p] == Indexed(q, l)
    ensures |Occurrences(c, p)| == |Users(c.tables, q)|
  {
    hide CacheOk, LedgerOk, IsSlot;
    IndexedPath(c, ledger, p, q, l);
    var users := Users(c.tables, q);
    forall r | r in users { UserHoldsPage(c, ledger, p, q, l, r); }
    forall o | o in Occurrences(c, p)
      ensures o.0 in users && o.1 == l && o.2 == |q| - 1
    {
      OccurrenceInLedger(c, ledger, p, o.0, o.1, o.2);
    }
    ImageSize(users, l, |q| - 1);
    assert Occurrences(c, p) == AtPlace(users, l, |q| - 1);
  }

  lemma UserHoldsPage(c: Cache, ledger: Ledger, p: PageId, q: Path, l: nat, r: RequestId)
    requires Consistent(c, ledger) && p in ledger && ledger[p] == Indexed(q, l) && r in Users(c.tables, q)
    ensures q != [] && |q| <= |c.tables[r].layers[l].pages| && c.tables[r].layers[l].pages[|q| - 1] == p
    ensures (r, l, |q| - 1) in Occurrences(c, p)
  {
    hide StampsOk;
    assert LayerOk(c.shared, c.tables[r], l);
    assert PageAt(c, Indexed(q, l)) == p;
    assert q != [] && c.tables[r].path[..|q| - 1 + 1] == q;
  }

  ghost function AtPlace(users: set<RequestId>, l: nat, i: nat): set<(RequestId, nat, nat)> {
    set r | r in users :: (r, l, i)
  }

  lemma {:induction false} ImageSize(users: set<RequestId>, l: nat, i: nat)
    ensures |AtPlace(users, l, i)| == |users|
    decreases users
  {
    if users != {} {
      var r :| r in users;
      ImageSize(users - {r}, l, i);
      var rest := AtPlace(users - {r}, l, i);
      assert AtPlace(users, l, i) == rest + {(r, l, i)};
      assert (r, l, i) !in rest;
    }
  }

  // ---- Capacity ------------------------------------------------------------------------------

  /** The pages held by some request's table. */
  ghost function PagesInUse(c: Cache): set<PageId>
    requires CacheOk(c)
  {
    set r, l, i | r in c.tables && 0 <= l < c.shared.layerCount && 0 <= i < |c.tables[r].layers[l].pages| ::
      c.tables[r].layers[l].pages[i]
  }

  function Elements(s: seq<PageId>): set<PageId> { set x | x in s }

  lemma {:induction false} DistinctSize(s: seq<PageId>)
    requires Distinct(s)
    ensures |Elements(s)| == |s|
    decreases |s|
  {
    if s != [] {
      var rest := s[..|s| - 1];
      assert s == rest + [Last(s)];
      assert Distinct(rest) by { forall i, j | 0 <= i < j < |rest| ensures rest[i] != rest[j] { assert s[i] != s[j]; } }
      DistinctSize(rest);
      var others := Elements(rest);
      assert Elements(s) == others + {Last(s)};
      assert Last(s) !in others;
    }
  }

  function PageIds(n: nat): (ids: set<PageId>)
    ensures |ids| == n && forall p: PageId :: p in ids <==> p < n
  {
    if n == 0 then {} else PageIds(n - 1) + {n - 1}
  }

  lemma InUseNotFree(c: Cache, ledger: Ledger)
    requires Consistent(c, ledger)
    ensures forall p :: p in PagesInUse(c) ==> p in ledger && p < |c.shared.pool.states| && p !in c.shared.pool.free
  {
    hide PrefixClosed, StampsOk, NodesShaped;
    forall p | p in PagesInUse(c)
      ensures p in ledger && p < |c.shared.pool.states| && p !in c.shared.pool.free
    {
      var r, l, i :| r in c.tables && 0 <= l < c.shared.layerCount && 0 <= i < |c.tables[r].layers[l].pages| &&
                     c.tables[r].layers[l].pages[i] == p;
      assert PageAt(c, OccurrenceSlot(c, r, l, i)) == p;
    }
  }

  /** Free pages and pages in use never exceed the pool, and they are all of it when no indexed block
      is idle. */
  lemma FreePlusInUse(c: Cache, ledger: Ledger)
    requires Consistent(c, ledger)
    ensures |c.shared.pool.free| + |PagesInUse(c)| <= |c.shared.pool.states|
    ensures (forall q :: q in c.shared.trie ==> Users(c.tables, q) != {}) ==>
              |c.shared.pool.free| + |PagesInUse(c)| == |c.shared.pool.states|
  {
    hide PrefixClosed, StampsOk, NodesShaped;
    var n := |c.shared.pool.states|;
    var inUse := PagesInUse(c);
    InUseNotFree(c, ledger);
    CountPages(c.shared.pool.free, inUse, n);
    if forall q :: q in c.shared.trie ==> Users(c.tables, q) != {} {
      forall p: PageId | p < n
        ensures p in c.shared.pool.free || p in inUse
      {
        if p in ledger { SlotPageInUse(c, ledger, p); }
      }
    }
  }

  lemma CountPages(free: seq<PageId>, inUse: set<PageId>, n: nat)
    requires Distinct(free) && (forall p :: p in free ==> p < n)
    requires forall p :: p in inUse ==> p < n && p !in free
    ensures |free| + |inUse| <= n
    ensures (forall p: PageId :: p < n ==> p in free || p in inUse) ==> |free| + |inUse| == n
  {
    var freeSet := Elements(free);
    DistinctSize(free);
    assert freeSet !! inUse && freeSet + inUse <= PageIds(n);
    SubsetSize(freeSet + inUse, PageIds(n));
    if forall p: PageId :: p < n ==> p in free || p in inUse {
      assert freeSet + inUse == PageIds(n);
    }
  }

  lemma SlotPageInUse(c: Cache, ledger: Ledger, p: PageId)
    requires Consistent(c, ledger) && p in ledger
    requires ledger[p].Indexed? ==> Users(c.tables, ledger[p].path) != {}
    ensures p in PagesInUse(c)
  {
    match ledger[p]
    case Pending(r, l, i) =>
    case Indexed(q, l) =>
      var r :| r in Users(c.tables, q);
      UserHoldsPage(c, ledger, p, q, l, r);
  }

  lemma SubsetSize<T>(a: set<T>, b: set<T>)
    requires a <= b
    ensures |a| <= |b|
  {
    assert |b| == |a| + |b - a| by { assert b == a + (b - a); }
  }

  /** A request that uses a block uses all its ancestors, so below every idle block hangs an idle
      leaf, and an idle leaf can be evicted. */
  lemma {:induction false} IdleBlockHasEvictableLeaf(c: Cache, ledger: Ledger, q: Path)
    requires Consistent(c, ledger) && q in c.shared.trie && Users(c.tables, q) == {}
    ensures exists v :: IsEvictable(c.shared.trie, c.shared.pool, v)
    decreases set u | u in c.shared.trie && q < u
  {
    if u :| u in c.shared.trie && q < u {
      assert Users(c.tables, u) <= Users(c.tables, q);
      var above, below := (set w | w in c.shared.trie && q < w), (set w | w in c.shared.trie && u < w);
      assert u in above && u !in below && below <= above;
      IdleBlockHasEvictableLeaf(c, ledger, u);
    } else {
      forall i | 0 <= i < |c.shared.trie[q].pages|
        ensures c.shared.trie[q].pages[i] < |c.shared.pool.states| &&
                c.shared.pool.states[c.shared.trie[q].pages[i]] == WrittenNotInUse
      {
        var o := Indexed(q, i);
        assert IsSlot(c, o) && ledger[PageAt(c, o)] == o;
      }
      assert IsEvictable(c.shared.trie, c.shared.pool, q);
    }
  }
}
