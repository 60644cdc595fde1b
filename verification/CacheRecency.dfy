/** Which blocks the cache gives up. An access gives the blocks it finds or adds a stamp later than all
    others, so that over every run the stamps order the blocks by their last access; and eviction frees no
    more than it must, taking each time the block whose last access is longest ago. */
module CacheRecency {
  import opened Common
  import opened CacheErrors
  import opened PagePool
  import opened PrefixTrie
  import opened PagedCacheSpec
  import opened CacheInvariant
  import opened CacheEviction
  import opened CacheAdvance
  import opened CacheRestore
  import opened CachePublish
  import opened CacheContent
  import opened CacheRuns

  // ---- Accesses -----------------------------------------------------------------------------------

  /** Whether the operation finds or adds a block: a restore finds the indexed complete blocks of the tokens it
      is for, a publication finds or adds those from the request's cursor on. */
  ghost predicate Accesses(d: Driver, op: Op, q: Path) {
    var s := d.cache.shared;
    CacheOk(d.cache) && Allowed(d, op) && s.enabled &&
    match op
    case RestoreOp(r, n) => !IsPopulated(d.cache.tables[r]) && q in s.trie && q <= Blocks(d.tokens[r][..n], s.pool.pageTokens)
    case PublishOp(r) =>
      var t := d.cache.tables[r];
      var blocks := Blocks(d.tokens[r][..CachedCount(t)], s.pool.pageTokens);
      |t.path| < |q| && |t.path| <= |blocks| && q <= t.path + blocks[|t.path|..]
    case _ => false
  }

  /** The new stamp of a block: the clock, if it was accessed, and the old one otherwise. */
  ghost predicate StampFollows(d: Driver, op: Op, s': Shared, q: Path)
    requires CacheOk(d.cache) && Allowed(d, op) && q in s'.trie
  {
    if Accesses(d, op, q) then s'.trie[q].stamp == d.cache.shared.clock < s'.clock
    else q in d.cache.shared.trie && s'.trie[q].stamp == d.cache.shared.trie[q].stamp
  }

  lemma RestoreStamps(d: Driver, kv: KvFunction, op: Op, ledger: Ledger, q: Path)
    requires Consistent(d.cache, ledger) && op.RestoreOp? && Allowed(d, op) && q in After(d, kv, op).cache.shared.trie
    ensures After(d, kv, op).cache.shared.trie.Keys == d.cache.shared.trie.Keys
    ensures StampFollows(d, op, After(d, kv, op).cache.shared, q)
  {
    hide LedgerOk, TableOk, Blocks, LongestMatch, FreeListExact, StampsOk, PrefixClosed, MatchedPath, PathRows, IsPopulated;
    var (c, tokens) := (d.cache, d.tokens[op.request][..op.prefixLength]);
    if c.shared.enabled && !IsPopulated(c.tables[op.request]) {
      RestoreComputes(c, ledger, op.request, tokens);
      hide Restore, Consistent;
      RestoredStamps(c.shared, tokens, q);
    }
  }

  lemma RestoredStamps(s: Shared, tokens: seq<Token>, q: Path)
    requires SharedOk(s) && q in s.trie
    ensures var m := MatchedPath(s, tokens);
            var touched := Touch(s.trie, m, 0, |m|, s.clock);
            && touched.Keys == s.trie.Keys
            && touched[q].stamp == if q <= Blocks(tokens, s.pool.pageTokens) then s.clock else s.trie[q].stamp
  {
    hide Blocks, FreeListExact, StampsOk, PrefixClosed;
    MatchedBlocks(s, tokens, q);
  }

  /** The matched path's blocks are the indexed ones. */
  lemma MatchedBlocks(s: Shared, tokens: seq<Token>, q: Path)
    requires SharedOk(s) && q in s.trie
    ensures q != [] && (q <= MatchedPath(s, tokens) <==> q <= Blocks(tokens, s.pool.pageTokens))
  {
    hide Blocks, FreeListExact, StampsOk;
    var blocks := Blocks(tokens, s.pool.pageTokens);
    LookupIsLongest(s.trie, blocks);
    var m := MatchedPath(s, tokens);
    assert m == blocks[..|m|];
    if q <= blocks {
      assert q == blocks[..|q|];
      assert |q| <= |m|;
      assert m[..|q|] == q;
    }
    if q <= m { assert q == m[..|q|] == blocks[..|q|]; }
  }

  lemma PublishStamps(d: Driver, kv: KvFunction, op: Op, ledger: Ledger, q: Path)
    requires Consistent(d.cache, ledger) && op.PublishOp? && Allowed(d, op) && q in After(d, kv, op).cache.shared.trie
    ensures StampFollows(d, op, After(d, kv, op).cache.shared, q)
  {
    var (c, tokens) := (d.cache, d.tokens[op.request]);
    var t := c.tables[op.request];
    if c.shared.enabled {
      PublishComputes(c, ledger, op.request, tokens);
      var full := PublishedPath(c.shared, t, tokens);
      var m := MatchFrom(c.shared.trie, full, |t.path|);
      PublishingBasics(c, ledger, op.request, full, m);
      hide Publish, LedgerOk, TableOk, Blocks, Publishing, PublishPages, NewRows, CanonicalRows, ReplacedRows, FreeListExact, StampsOk, SharedOk;
      PublishedStamps(c.shared, t, full, m, q);
    }
  }

  lemma PublishedStamps(s: Shared, t: Table, full: Path, m: nat, q: Path)
    requires Publishable(s, t, full, m) && Branches(s.trie, |t.path|, full, m) && q in PublishedTrie(s, t, full, m)
    requires PrefixClosed(s.trie)
    ensures var node := PublishedTrie(s, t, full, m)[q];
            if |t.path| < |q| && q <= full then node.stamp == s.clock else q in s.trie && node.stamp == s.trie[q].stamp
  {
    hide PrefixClosed;
    if q <= full && |q| > 0 { assert q == full[..|q|]; }
    if q in NewPaths(full, m) {
      var k :| m < k <= |full| && q == full[..k];
    } else if q in s.trie && q <= full && |t.path| < |q| {
      assert |q| <= m;
    }
  }

  /** What every other operation does to the index: nothing but evictions. */
  lemma OtherStamps(d: Driver, kv: KvFunction, op: Op, ledger: Ledger)
    requires Consistent(d.cache, ledger) && Allowed(d, op) && !op.RestoreOp? && !op.PublishOp?
    ensures var (s, s') := (d.cache.shared, After(d, kv, op).cache.shared);
            && s'.clock == s.clock && s'.trie.Keys <= s.trie.Keys && (forall q :: q in s'.trie ==> s'.trie[q] == s.trie[q])
            && (!op.AppendOp? ==> s'.trie == s.trie)
  {
    hide LedgerOk, TableOk, SharedOk, Blocks;
    match op
    case AppendOp(r, l, n) =>
      var c := d.cache;
      AppendStamps(c, ledger, r, l, NextEntries(kv, l, d.tokens[r], c.tables[r].layers[l].count, n));
    case _ =>
  }

  lemma AppendStamps(c: Cache, ledger: Ledger, r: RequestId, l: nat, values: seq<KvEntry>)
    requires Consistent(c, ledger) && r in c.tables && l < |c.tables[r].layers| && values != []
    ensures var s' := Append(c.shared, c.tables[r], l, c.tables[r].layers[l].count, values).shared;
            var e := EvictUntil(c.shared, RequiredPages(c.shared.pool.pageTokens, c.tables[r].layers[l].count, |values|)).shared;
            && s'.trie == e.trie && s'.clock == e.clock == c.shared.clock && e.trie.Keys <= c.shared.trie.Keys
            && (forall q :: q in e.trie ==> e.trie[q] == c.shared.trie[q])
  {
    hide LedgerOk, EvictUntil, AppendChunks, RequiredPages, Victim, PrefixClosed, StampsOk, PoolOk, LayerOk;
    var required := RequiredPages(c.shared.pool.pageTokens, c.tables[r].layers[l].count, |values|);
    var _ := EvictUntilOk(c, ledger, required);
    EvictKeepsShape(c.shared, required);
    var e := EvictUntil(c.shared, required).shared;
    if required <= |e.pool.free| { ChunksKeepIndex(e, c.tables[r], l, values); }
  }

  lemma {:induction false} ChunksKeepIndex(s: Shared, t: Table, l: nat, values: seq<KvEntry>)
    requires LayerInRange(s, t, l)
    ensures AppendChunks(s, t, l, values).shared.trie == s.trie && AppendChunks(s, t, l, values).shared.clock == s.clock
    decreases |values|
  {
    if values != [] {
      var one := AppendChunk(s, t, l, values);
      assert one.shared.trie == s.trie && one.shared.clock == s.clock;
      hide AppendChunk;
      if one.result.Ok? { ChunksKeepIndex(one.shared, one.table, l, values[one.result.value..]); }
    }
  }

  /** One operation stamps exactly the blocks it accesses, with a stamp later than all before. */
  lemma StepStamps(d: Driver, kv: KvFunction, op: Op, q: Path)
    requires Good(d, kv) && CacheOk(d.cache) && Allowed(d, op) && q in After(d, kv, op).cache.shared.trie
    ensures StampFollows(d, op, After(d, kv, op).cache.shared, q)
  {
    hide CacheOk, LedgerOk, Sound, Allowed;
    var ledger: Ledger :| Consistent(d.cache, ledger);
    if op.RestoreOp? {
      RestoreStamps(d, kv, op, ledger, q);
    } else if op.PublishOp? {
      PublishStamps(d, kv, op, ledger, q);
    } else {
      OtherStamps(d, kv, op, ledger);
    }
  }

  lemma ClockRuns(d: Driver, kv: KvFunction, op: Op)
    requires Good(d, kv) && CacheOk(d.cache) && Allowed(d, op)
    ensures d.cache.shared.clock <= After(d, kv, op).cache.shared.clock
    ensures forall q :: Accesses(d, op, q) ==> d.cache.shared.clock < After(d, kv, op).cache.shared.clock
  {
    hide LedgerOk, Sound, TableOk, SharedOk, Blocks;
    var ledger: Ledger :| Consistent(d.cache, ledger);
    if op.RestoreOp? {
      var (c, tokens) := (d.cache, d.tokens[op.request][..op.prefixLength]);
      if c.shared.enabled && !IsPopulated(c.tables[op.request]) { RestoreComputes(c, ledger, op.request, tokens); }
    } else if op.PublishOp? {
      if d.cache.shared.enabled { PublishComputes(d.cache, ledger, op.request, d.tokens[op.request]); }
    } else {
      OtherStamps(d, kv, op, ledger);
    }
  }

  // ---- Runs ---------------------------------------------------------------------------------------

  /** The last of the first n operations that accessed the block, counted from one; zero if none did. */
  ghost function LastAccess(states: seq<Driver>, ops: seq<Op>, q: Path, n: nat): (last: nat)
    requires n <= |ops| < |states|
    ensures last <= n
  {
    if n == 0 then 0 else if Accesses(states[n - 1], ops[n - 1], q) then n else LastAccess(states, ops, q, n - 1)
  }

  ghost predicate RunsFromEmpty(states: seq<Driver>, ops: seq<Op>, kv: KvFunction) {
    IsRun(states, ops, kv) && Good(states[0], kv) && states[0].cache.shared.trie == map[]
  }

  lemma RunFacts(states: seq<Driver>, ops: seq<Op>, kv: KvFunction, n: nat)
    requires IsRun(states, ops, kv) && Good(states[0], kv) && n < |ops|
    ensures Good(states[n], kv) && CacheOk(states[n].cache) && Allowed(states[n], ops[n])
    ensures states[n + 1] == After(states[n], kv, ops[n])
  {
    hide Good, Allowed, After, CacheOk, OthersUnaffected;
    RunKeepsGood(states, ops, kv, n);
    GoodIsWellFormed(states[n], kv);
    assert RunStep(states[n], ops[n], states[n + 1], kv);
  }

  /** The clock never runs back. */
  lemma {:induction false} ClockNeverRunsBack(states: seq<Driver>, ops: seq<Op>, kv: KvFunction, m: nat, n: nat)
    requires IsRun(states, ops, kv) && Good(states[0], kv) && m <= n <= |ops|
    ensures states[m].cache.shared.clock <= states[n].cache.shared.clock
    decreases n
  {
    hide Good, Allowed, After, CacheOk, Accesses;
    if m < n {
      ClockNeverRunsBack(states, ops, kv, m, n - 1);
      RunFacts(states, ops, kv, n - 1);
      ClockRuns(states[n - 1], kv, ops[n - 1]);
    }
  }

  /** Every indexed block was accessed, and its stamp is the clock's value at its last access. */
  lemma {:induction false} StampIsLastAccess(states: seq<Driver>, ops: seq<Op>, kv: KvFunction, n: nat, q: Path)
    requires RunsFromEmpty(states, ops, kv) && n <= |ops| && q in states[n].cache.shared.trie
    ensures var last := LastAccess(states, ops, q, n);
            && 0 < last
            && Accesses(states[last - 1], ops[last - 1], q)
            && states[n].cache.shared.trie[q].stamp == states[last - 1].cache.shared.clock
    decreases n
  {
    hide Good, Allowed, After, CacheOk, Accesses;
    if n > 0 {
      RunFacts(states, ops, kv, n - 1);
      StepStamps(states[n - 1], kv, ops[n - 1], q);
      if !Accesses(states[n - 1], ops[n - 1], q) { StampIsLastAccess(states, ops, kv, n - 1, q); }
    }
  }

  /** Over every run the stamps order the indexed blocks as their last accesses do. */
  lemma StampsOrderAccesses(states: seq<Driver>, ops: seq<Op>, kv: KvFunction, n: nat, q: Path, u: Path)
    requires RunsFromEmpty(states, ops, kv) && n <= |ops|
    requires q in states[n].cache.shared.trie && u in states[n].cache.shared.trie
    ensures states[n].cache.shared.trie[q].stamp < states[n].cache.shared.trie[u].stamp <==>
            LastAccess(states, ops, q, n) < LastAccess(states, ops, u, n)
  {
    hide Good, Allowed, After, CacheOk, Accesses;
    StampIsLastAccess(states, ops, kv, n, q);
    StampIsLastAccess(states, ops, kv, n, u);
    var (i, j) := (LastAccess(states, ops, q, n), LastAccess(states, ops, u, n));
    hide LastAccess;
    if i < j { EarlierAccess(states, ops, kv, n, q, u); }
    if j < i { EarlierAccess(states, ops, kv, n, u, q); }
  }

  lemma EarlierAccess(states: seq<Driver>, ops: seq<Op>, kv: KvFunction, n: nat, q: Path, u: Path)
    requires RunsFromEmpty(states, ops, kv) && n <= |ops|
    requires 0 < LastAccess(states, ops, q, n) < LastAccess(states, ops, u, n)
    requires Accesses(states[LastAccess(states, ops, q, n) - 1], ops[LastAccess(states, ops, q, n) - 1], q)
    ensures states[LastAccess(states, ops, q, n) - 1].cache.shared.clock < states[LastAccess(states, ops, u, n) - 1].cache.shared.clock
  {
    hide Good, Allowed, After, CacheOk, Accesses;
    var (i, j) := (LastAccess(states, ops, q, n), LastAccess(states, ops, u, n));
    RunFacts(states, ops, kv, i - 1);
    ClockRuns(states[i - 1], kv, ops[i - 1]);
    ClockNeverRunsBack(states, ops, kv, i, j - 1);
  }

  // ---- Evictions ----------------------------------------------------------------------------------

  /** One turn of the loop. */
  lemma EvictTurn(c: Cache, ledger: Ledger, required: nat) returns (v: Path, ledger': Ledger)
    requires Consistent(c, ledger) && |c.shared.pool.free| < required && c.shared.enabled
    requires Victim(c.shared.trie, c.shared.pool).Some?
    ensures Victim(c.shared.trie, c.shared.pool) == Some(v) && IsVictim(c.shared.trie, c.shared.pool, v)
    ensures EvictUntil(c.shared, required) == EvictUntil(Evicted(c, v).shared, required)
    ensures Consistent(Evicted(c, v), ledger')
    ensures Evicted(c, v).shared.trie.Keys == c.shared.trie.Keys - {v} && |Evicted(c, v).shared.trie| < |c.shared.trie|
    ensures |Evicted(c, v).shared.pool.free| == |c.shared.pool.free| + c.shared.layerCount
  {
    v := Victim(c.shared.trie, c.shared.pool).value;
    EvictedPool(c, ledger, v);
    ledger' := EvictKeepsConsistent(c, ledger, v);
    hide Consistent, ReleaseAll;
    assert Evicted(c, v).shared.trie.Keys == c.shared.trie.Keys - {v};
  }

  lemma StaysEvictable(c: Cache, ledger: Ledger, v: Path, u: Path)
    requires Consistent(c, ledger) && IsEvictable(c.shared.trie, c.shared.pool, v) && IsEvictable(c.shared.trie, c.shared.pool, u)
    requires u != v
    ensures IsEvictable(Evicted(c, v).shared.trie, Evicted(c, v).shared.pool, u)
  {
    hide Consistent, ReleaseAll, PoolOk;
    forall i | 0 <= i < |c.shared.trie[u].pages|
      ensures c.shared.trie[u].pages[i] < |Evicted(c, v).shared.pool.states|
      ensures Evicted(c, v).shared.pool.states[c.shared.trie[u].pages[i]] == WrittenNotInUse
    {
      PageStaysInactive(c, ledger, v, u, i);
    }
  }

  lemma PageStaysInactive(c: Cache, ledger: Ledger, v: Path, u: Path, i: nat)
    requires Consistent(c, ledger) && IsEvictable(c.shared.trie, c.shared.pool, v) && IsEvictable(c.shared.trie, c.shared.pool, u)
    requires u != v && i < |c.shared.trie[u].pages|
    ensures c.shared.trie[u].pages[i] < |Evicted(c, v).shared.pool.states|
    ensures Evicted(c, v).shared.pool.states[c.shared.trie[u].pages[i]] == WrittenNotInUse
  {
    hide Consistent, ReleaseAll, PoolOk, Distinct, Releasable, Users;
    EvictedPool(c, ledger, v);
    EvictablePages(c, ledger, v);
    EvictablePages(c, ledger, u);
    assert ledger[c.shared.trie[u].pages[i]] == Indexed(u, i);
  }

  /** A block the loop evicts was accessed no later than any idle leaf that it leaves. */
  lemma {:induction false} EvictsOldest(c: Cache, ledger: Ledger, required: nat, q: Path, u: Path)
    requires Consistent(c, ledger) && IsEvictable(c.shared.trie, c.shared.pool, u)
    requires q in c.shared.trie && q !in EvictUntil(c.shared, required).shared.trie
    requires u in EvictUntil(c.shared, required).shared.trie
    ensures c.shared.trie[q].stamp <= c.shared.trie[u].stamp
    decreases |c.shared.trie|
  {
    hide Consistent, ReleaseAll, IsEvictable;
    var v, ledger1 := EvictTurn(c, ledger, required);
    if q != v {
      GoneIsGone(Evicted(c, v).shared, required);
      StaysEvictable(c, ledger, v, u);
      EvictsOldest(Evicted(c, v), ledger1, required, q, u);
    }
  }

  lemma {:induction false} GoneIsGone(s: Shared, required: nat)
    ensures EvictUntil(s, required).shared.trie.Keys <= s.trie.Keys
    decreases |s.trie|
  {
    if |s.pool.free| < required && s.enabled && Victim(s.trie, s.pool).Some? {
      var v := Victim(s.trie, s.pool).value;
      var released := ReleaseAll(s.pool, s.trie[v].pages);
      hide ReleaseAll, IsVictim;
      var s' := s.(pool := released.pool, trie := s.trie - {v});
      assert s'.trie.Keys == s.trie.Keys - {v};
      if released.error.None? { GoneIsGone(s', required); }
    }
  }

  /** The loop evicts nothing when there is room, and otherwise stops at the first eviction that makes it. */
  lemma {:induction false} EvictsNoMore(c: Cache, ledger: Ledger, required: nat)
    requires Consistent(c, ledger)
    ensures var e := EvictUntil(c.shared, required).shared;
            && (required <= |c.shared.pool.free| ==> e == c.shared)
            && (e != c.shared ==> |e.pool.free| < required + c.shared.layerCount)
    decreases |c.shared.trie|
  {
    hide Consistent, ReleaseAll, IsVictim;
    if |c.shared.pool.free| < required && c.shared.enabled && Victim(c.shared.trie, c.shared.pool).Some? {
      var v, ledger1 := EvictTurn(c, ledger, required);
      EvictsNoMore(Evicted(c, v), ledger1, required);
    }
  }

  /** The pages an append asks for. */
  function Demand(d: Driver, op: Op): nat
    requires op.AppendOp? && op.request in d.cache.tables && op.layer < |d.cache.tables[op.request].layers|
    requires d.cache.shared.pool.pageTokens > 0
  {
    RequiredPages(d.cache.shared.pool.pageTokens, d.cache.tables[op.request].layers[op.layer].count, op.tokenCount)
  }

  lemma OnlyAppendsEvict(d: Driver, kv: KvFunction, op: Op, ledger: Ledger)
    requires Consistent(d.cache, ledger) && Allowed(d, op) && !op.AppendOp?
    ensures d.cache.shared.trie.Keys <= After(d, kv, op).cache.shared.trie.Keys
  {
    hide LedgerOk, TableOk, StampsOk, FreeListExact, Blocks;
    if op.RestoreOp? {
      var (c, tokens) := (d.cache, d.tokens[op.request][..op.prefixLength]);
      if c.shared.enabled && !IsPopulated(c.tables[op.request]) { RestoreComputes(c, ledger, op.request, tokens); }
    } else if op.PublishOp? {
      if d.cache.shared.enabled { PublishComputes(d.cache, ledger, op.request, d.tokens[op.request]); }
    } else {
      OtherStamps(d, kv, op, ledger);
    }
  }

  /** The loop behind an append takes the blocks it takes in the order of their stamps. */
  lemma AppendEvictsOldest(d: Driver, kv: KvFunction, op: Op, ledger: Ledger, q: Path)
    requires Consistent(d.cache, ledger) && Allowed(d, op) && op.AppendOp? && d.cache.shared.pool.pageTokens > 0
    requires q in d.cache.shared.trie && q !in After(d, kv, op).cache.shared.trie
    ensures |d.cache.shared.pool.free| < Demand(d, op)
    ensures forall u :: IsEvictable(d.cache.shared.trie, d.cache.shared.pool, u) && u in After(d, kv, op).cache.shared.trie ==>
              d.cache.shared.trie[q].stamp <= d.cache.shared.trie[u].stamp
  {
    hide LedgerOk, TableOk, StampsOk, FreeListExact, PrefixClosed, IsEvictable, EvictUntil, RequiredPages, Append;
    var (c, r, l) := (d.cache, op.request, op.layer);
    AppendStamps(c, ledger, r, l, NextEntries(kv, l, d.tokens[r], c.tables[r].layers[l].count, op.tokenCount));
    EvictsNoMore(c, ledger, Demand(d, op));
    forall u | IsEvictable(c.shared.trie, c.shared.pool, u) && u in After(d, kv, op).cache.shared.trie
      ensures c.shared.trie[q].stamp <= c.shared.trie[u].stamp
    {
      EvictsOldest(c, ledger, Demand(d, op), q, u);
    }
  }

  /** Over every run a block leaves the index only in an append that finds too few pages free, and its last
      access is no later than that of any idle leaf that stays. */
  lemma LeastRecentlyUsedGoes(states: seq<Driver>, ops: seq<Op>, kv: KvFunction, n: nat, q: Path)
    requires RunsFromEmpty(states, ops, kv) && n < |ops|
    requires q in states[n].cache.shared.trie && q !in states[n + 1].cache.shared.trie
    ensures Allowed(states[n], ops[n]) && ops[n].AppendOp? && states[n].cache.shared.pool.pageTokens > 0
    ensures |states[n].cache.shared.pool.free| < Demand(states[n], ops[n])
    ensures forall u :: IsEvictable(states[n].cache.shared.trie, states[n].cache.shared.pool, u) && u in states[n + 1].cache.shared.trie ==>
              LastAccess(states, ops, q, n) <= LastAccess(states, ops, u, n)
  {
    hide Good, Allowed, After, CacheOk, Accesses, LastAccess, IsEvictable;
    RunFacts(states, ops, kv, n);
    EvictionIsOldest(states[n], kv, ops[n], q);
    forall u | IsEvictable(states[n].cache.shared.trie, states[n].cache.shared.pool, u) && u in states[n + 1].cache.shared.trie
      ensures LastAccess(states, ops, q, n) <= LastAccess(states, ops, u, n)
    {
      EvictableIndexed(states[n], u);
      StampsOrderAccesses(states, ops, kv, n, u, q);
    }
  }

  lemma EvictableIndexed(d: Driver, u: Path)
    requires IsEvictable(d.cache.shared.trie, d.cache.shared.pool, u)
    ensures u in d.cache.shared.trie
  {
  }

  lemma EvictionIsOldest(d: Driver, kv: KvFunction, op: Op, q: Path)
    requires Good(d, kv) && CacheOk(d.cache) && Allowed(d, op)
    requires q in d.cache.shared.trie && q !in After(d, kv, op).cache.shared.trie
    ensures op.AppendOp? && d.cache.shared.pool.pageTokens > 0 && |d.cache.shared.pool.free| < Demand(d, op)
    ensures forall u :: IsEvictable(d.cache.shared.trie, d.cache.shared.pool, u) && u in After(d, kv, op).cache.shared.trie ==>
              d.cache.shared.trie[q].stamp <= d.cache.shared.trie[u].stamp
  {
    hide LedgerOk, Sound, TableOk, StampsOk, FreeListExact, PrefixClosed, IsEvictable, Append, Restore, Publish, Allowed;
    var ledger: Ledger :| Consistent(d.cache, ledger);
    if op.AppendOp? {
      AppendEvictsOldest(d, kv, op, ledger, q);
    } else {
      OnlyAppendsEvict(d, kv, op, ledger);
    }
  }
}
