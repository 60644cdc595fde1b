/** Why admitted requests always finish: as long as the reservations of the active requests fit the page
    capacity and every request stays within its own reservation, no append runs out of pages, however
    the index, the sharing of prefixes and the other requests use the pool. */
module NoPreemption {
  import opened Common
  import opened Arithmetic
  import opened CacheErrors
  import opened PagePool
  import opened PrefixTrie
  import opened PagedCacheSpec
  import opened CacheInvariant
  import opened CacheAppend
  import opened SchedulerSpec

  /** The pages in one request's tables, over its first n layers. */
  ghost function HeldBy(t: Table, n: nat): set<PageId>
    requires n <= |t.layers|
  {
    if n == 0 then {} else HeldBy(t, n - 1) + Elements(t.layers[n - 1].pages)
  }

  /** Every layer of the table fits the reservation, and layer l even with `extra` more pages. */
  ghost predicate FitsReservation(t: Table, pages: nat, l: nat, extra: nat) {
    forall m :: 0 <= m < |t.layers| ==> |t.layers[m].pages| + (if m == l then extra else 0) <= pages
  }

  lemma {:induction false} ElementsSize(s: seq<PageId>)
    ensures |Elements(s)| <= |s|
    decreases |s|
  {
    if s != [] {
      var rest := s[..|s| - 1];
      ElementsSize(rest);
      assert s == rest + [s[|s| - 1]];
      assert Elements(s) == Elements(rest) + {s[|s| - 1]};
    }
  }

  lemma {:induction false} HeldByBound(t: Table, pages: nat, l: nat, extra: nat, n: nat)
    requires n <= |t.layers| && FitsReservation(t, pages, l, extra)
    ensures |HeldBy(t, n)| + (if l < n then extra else 0) <= n * pages
    decreases n
  {
    if n > 0 {
      HeldByBound(t, pages, l, extra, n - 1);
      ElementsSize(t.layers[n - 1].pages);
      assert n * pages == (n - 1) * pages + pages;
    }
  }

  /** The pages held by the first n of the active requests. */
  ghost function HeldByActive(c: Cache, active: seq<Request>, n: nat): set<PageId>
    requires n <= |active|
  {
    if n == 0 then {} else HeldByActive(c, active, n - 1) + HeldByOne(c, active[n - 1].id)
  }

  ghost function HeldByOne(c: Cache, id: RequestId): set<PageId> {
    if id in c.tables then HeldBy(c.tables[id], |c.tables[id].layers|) else {}
  }

  /** Every request holds no more than its reservation, and request r could take `extra` more pages in
      layer l. */
  ghost predicate WithinReservations(c: Cache, active: seq<Request>, r: RequestId, l: nat, extra: nat) {
    forall i :: 0 <= i < |active| && active[i].id in c.tables ==>
      && |c.tables[active[i].id].layers| == c.shared.layerCount
      && FitsReservation(c.tables[active[i].id], active[i].maxPages, l, if active[i].id == r then extra else 0)
  }

  ghost predicate ActiveDistinct(active: seq<Request>) {
    forall i, j :: 0 <= i < j < |active| ==> active[i].id != active[j].id
  }

  ghost predicate AmongFirst(active: seq<Request>, n: nat, r: RequestId)
    requires n <= |active|
  {
    exists i :: 0 <= i < n && active[i].id == r
  }

  lemma AmongOneMore(active: seq<Request>, n: nat, r: RequestId)
    requires 0 < n <= |active| && ActiveDistinct(active)
    ensures AmongFirst(active, n, r) <==> AmongFirst(active, n - 1, r) || active[n - 1].id == r
    ensures active[n - 1].id == r ==> !AmongFirst(active, n - 1, r)
  {
    if i :| 0 <= i < n && active[i].id == r { assert i == n - 1 || AmongFirst(active, n - 1, r); }
  }

  lemma {:induction false} HeldByActiveBound(c: Cache, active: seq<Request>, r: RequestId, l: nat, extra: nat, n: nat)
    requires n <= |active| && WithinReservations(c, active, r, l, extra) && ActiveDistinct(active) && l < c.shared.layerCount
    requires r in c.tables
    ensures |HeldByActive(c, active, n)| + (if AmongFirst(active, n, r) then extra else 0) <= c.shared.layerCount * SumPages(active[..n])
    decreases n
  {
    hide AmongFirst, ActiveDistinct, WithinReservations, HeldByOne;
    if n > 0 {
      HeldByActiveBound(c, active, r, l, extra, n - 1);
      assert active[..n][..n - 1] == active[..n - 1];
      SumScaled(c.shared.layerCount, SumPages(active[..n - 1]), active[n - 1].maxPages);
      AmongOneMore(active, n, r);
      UnionSize(HeldByActive(c, active, n - 1), HeldByOne(c, active[n - 1].id));
      HeldByOneBound(c, active, r, l, extra, n - 1);
    } else {
      NobodyAmongNone(active, r);
    }
  }

  lemma HeldByOneBound(c: Cache, active: seq<Request>, r: RequestId, l: nat, extra: nat, k: nat)
    requires k < |active| && WithinReservations(c, active, r, l, extra) && l < c.shared.layerCount && r in c.tables
    ensures |HeldByOne(c, active[k].id)| + (if active[k].id == r then extra else 0) <= c.shared.layerCount * active[k].maxPages
  {
    hide HeldBy, FitsReservation;
    var a := active[k];
    if a.id in c.tables {
      assert |c.tables[a.id].layers| == c.shared.layerCount;
      HeldByBound(c.tables[a.id], a.maxPages, l, if a.id == r then extra else 0, c.shared.layerCount);
    }
  }

  lemma UnionSize(a: set<PageId>, b: set<PageId>)
    ensures |a + b| <= |a| + |b|
  {
    assert |a + b| + |a * b| == |a| + |b|;
  }

  lemma NobodyAmongNone(active: seq<Request>, r: RequestId)
    ensures !AmongFirst(active, 0, r)
  {
  }

  lemma SumScaled(n: nat, a: nat, b: nat)
    ensures n * (a + b) == n * a + n * b && n * b >= 0
  {
  }

  lemma {:induction false} HeldByHolds(t: Table, n: nat, l: nat, i: nat)
    requires l < n <= |t.layers| && i < |t.layers[l].pages|
    ensures t.layers[l].pages[i] in HeldBy(t, n)
    decreases n
  {
    if l < n - 1 {
      HeldByHolds(t, n - 1, l, i);
    } else {
      assert t.layers[l].pages[i] in t.layers[l].pages;
    }
  }

  lemma {:induction false} HeldByActiveHolds(c: Cache, active: seq<Request>, n: nat, k: nat, p: PageId)
    requires k < n <= |active| && active[k].id in c.tables
    requires p in HeldBy(c.tables[active[k].id], |c.tables[active[k].id].layers|)
    ensures p in HeldByActive(c, active, n)
    decreases n
  {
    if k < n - 1 { HeldByActiveHolds(c, active, n - 1, k, p); }
  }

  /** The pages in use are held by the active requests. */
  lemma {:induction false} InUseHeld(c: Cache, active: seq<Request>)
    requires CacheOk(c) && forall r :: r in c.tables ==> exists i :: 0 <= i < |active| && active[i].id == r
    ensures PagesInUse(c) <= HeldByActive(c, active, |active|)
  {
    forall p | p in PagesInUse(c)
      ensures p in HeldByActive(c, active, |active|)
    {
      var r, l, i :| r in c.tables && 0 <= l < c.shared.layerCount && 0 <= i < |c.tables[r].layers[l].pages| &&
                     c.tables[r].layers[l].pages[i] == p;
      var k :| 0 <= k < |active| && active[k].id == r;
      HeldByHolds(c.tables[r], |c.tables[r].layers|, l, i);
      HeldByActiveHolds(c, active, |active|, k, p);
    }
  }

  /** A cache serves the active requests: each live request is active, its reservation covers its bound
      on cached tokens, and no layer holds more than the bound. */
  ghost predicate Serves(c: Cache, active: seq<Request>, bounds: map<RequestId, nat>) {
    && CacheOk(c) && ActiveDistinct(active)
    && (forall r :: r in c.tables ==> Served(c, active, bounds, r))
  }

  ghost predicate Served(c: Cache, active: seq<Request>, bounds: map<RequestId, nat>, r: RequestId)
    requires CacheOk(c) && r in c.tables
  {
    && r in bounds
    && (exists i :: 0 <= i < |active| && active[i].id == r)
    && (forall i :: 0 <= i < |active| && active[i].id == r ==> active[i].maxPages == CeilDiv(bounds[r], c.shared.pool.pageTokens))
    && (forall l :: 0 <= l < |c.tables[r].layers| ==> c.tables[r].layers[l].count <= bounds[r])
  }

  lemma ReservationCovers(c: Cache, active: seq<Request>, bounds: map<RequestId, nat>, r: RequestId, l: nat, n: nat)
    requires Serves(c, active, bounds) && r in c.tables && l < c.shared.layerCount && l < |c.tables[r].layers|
    requires c.tables[r].layers[l].count + n <= bounds[r]
    ensures c.shared.pool.pageTokens > 0
    ensures WithinReservations(c, active, r, l, RequiredPages(c.shared.pool.pageTokens, c.tables[r].layers[l].count, n))
  {
    hide PrefixClosed, StampsOk, FreeListExact, NodesShaped, Div, Mod, CeilDiv;
    var size := c.shared.pool.pageTokens;
    var extra := RequiredPages(size, c.tables[r].layers[l].count, n);
    forall i | 0 <= i < |active| && active[i].id in c.tables
      ensures |c.tables[active[i].id].layers| == c.shared.layerCount
      ensures FitsReservation(c.tables[active[i].id], active[i].maxPages, l, if active[i].id == r then extra else 0)
    {
      var x := active[i].id;
      assert Served(c, active, bounds, x) && TableOk(c.shared, c.tables[x]);
      forall m | 0 <= m < |c.tables[x].layers|
        ensures |c.tables[x].layers[m].pages| + (if m == l && x == r then extra else 0) <= active[i].maxPages
      {
        assert LayerOk(c.shared, c.tables[x], m);
        var count := c.tables[x].layers[m].count;
        CeilDivMonotone(count, bounds[x], size);
        if m == l && x == r {
          RequiredPagesIsGrowth(size, count, n);
          CeilDivMonotone(count + n, bounds[x], size);
        }
      }
    }
  }

  /** The headline: when the reservations fit the capacity, an append within the request's own bound
      finds its pages, whatever is indexed or shared. */
  lemma AppendNeverRunsOut(c: Cache, ledger: Ledger, active: seq<Request>, bounds: map<RequestId, nat>, capacity: nat,
                           r: RequestId, l: nat, values: seq<KvEntry>)
    requires Consistent(c, ledger) && Serves(c, active, bounds) && r in c.tables && l < |c.tables[r].layers|
    requires SumPages(active) <= capacity && c.shared.layerCount * capacity <= |c.shared.pool.states|
    requires values != [] && c.tables[r].layers[l].count + |values| <= bounds[r]
    ensures Append(c.shared, c.tables[r], l, c.tables[r].layers[l].count, values).result ==
            Ok(c.tables[r].layers[l].count + |values|)
  {
    hide LedgerOk, PrefixClosed, StampsOk, FreeListExact, NodesShaped, Append, RequiredPages, SumPages, Serves, HeldByActive;
    LayerView(c, r, 0);
    var count := c.tables[r].layers[l].count;
    var extra := RequiredPages(c.shared.pool.pageTokens, count, |values|);
    ReservationCovers(c, active, bounds, r, l, |values|);
    ServesFacts(c, active, bounds, r);
    HeldByActiveBound(c, active, r, l, extra, |active|);
    assert active[..|active|] == active;
    InUseHeld(c, active);
    SubsetSize(PagesInUse(c), HeldByActive(c, active, |active|));
    Scale(c.shared.layerCount, SumPages(active), capacity);
    var _ := AppendExact(c, ledger, r, l, count, values);
  }

  lemma ServesFacts(c: Cache, active: seq<Request>, bounds: map<RequestId, nat>, r: RequestId)
    requires Serves(c, active, bounds) && r in c.tables
    ensures ActiveDistinct(active) && forall x :: x in c.tables ==> exists i :: 0 <= i < |active| && active[i].id == x
  {
    forall x | x in c.tables ensures exists i :: 0 <= i < |active| && active[i].id == x { assert Served(c, active, bounds, x); }
  }

  /** The geometry's page capacity, in every layer at once, fits the pool: the token capacity was rounded
      down from the page count per layer, possibly further for the other model's cache. */
  lemma CapacityFitsPool(pageCount: nat, layerCount: nat, pageTokens: nat, tokenCapacity: nat)
    requires layerCount > 0 && pageTokens > 0
    requires tokenCapacity <= Div(pageCount, layerCount) * pageTokens
    ensures layerCount * Div(tokenCapacity, pageTokens) <= pageCount
  {
    var perLayer := Div(pageCount, layerCount);
    DivMonotone(tokenCapacity, perLayer * pageTokens, pageTokens);
    MulDiv(perLayer, pageTokens);
    DivMod(pageCount, layerCount);
    Scale(layerCount, Div(tokenCapacity, pageTokens), perLayer);
  }
}
