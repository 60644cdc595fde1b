/** Whole runs of the cache: every sequence of operations the callers may issue. */
module CacheRuns {
  import opened Common
  import opened Arithmetic
  import opened PagePool
  import opened PrefixTrie
  import opened PagedCacheSpec
  import opened CacheInvariant
  import opened CacheAppend
  import opened CacheRelease
  import opened CacheRestore
  import opened CachePublish
  import opened CacheContent

  datatype Op =
    | StartOp(request: RequestId, input: seq<Token>)
    | RestoreOp(request: RequestId, prefixLength: nat)
    | AppendOp(request: RequestId, layer: nat, tokenCount: nat)
    | TruncateOp(request: RequestId, target: nat)
    | RetokenOp(request: RequestId, tokens: seq<Token>)
    | PublishOp(request: RequestId)
    | RemoveOp(request: RequestId)

  /** The cache together with the token sequence each request is being run on. */
  datatype Driver = Driver(cache: Cache, tokens: map<RequestId, seq<Token>>)

  /** A cache with every page free and nothing indexed. */
  function FreshCache(enabled: bool, layerCount: nat, pageTokens: nat, pageCount: nat, filler: KvEntry): Cache {
    Cache(Shared(enabled, layerCount, FreshPool(pageTokens, pageCount, filler), map[], 0), map[])
  }

  lemma FreshCacheOk(enabled: bool, layerCount: nat, pageTokens: nat, pageCount: nat, filler: KvEntry, kv: KvFunction)
    requires layerCount > 0 && pageTokens > 0
    ensures var c := FreshCache(enabled, layerCount, pageTokens, pageCount, filler);
            Consistent(c, map[]) && Sound(c, kv, map[])
  {
    var c := FreshCache(enabled, layerCount, pageTokens, pageCount, filler);
    forall id: PageId | id < pageCount
      ensures id in c.shared.pool.free
    {
      assert c.shared.pool.free[pageCount - 1 - id] == id;
    }
  }

  /** The entries of the next n tokens of a request in one layer. */
  function NextEntries(kv: KvFunction, l: nat, tokens: seq<Token>, count: nat, n: nat): (e: seq<KvEntry>)
    requires count + n <= |tokens|
    ensures |e| == n
  {
    seq(n, i requires 0 <= i < n => kv(l, tokens[..count + i + 1]))
  }

  /** The discipline of the model executor and the generation loop: a request is appended to layer by
      layer with its own next tokens, truncated no lower than its cursor, given new tokens only beyond
      what is cached, and published only when every layer has the first one's complete blocks. Whether an
      append finds room is not part of the discipline. */
  ghost predicate Allowed(d: Driver, op: Op) {
    match op
    case StartOp(r, input) => r !in d.cache.tables && |d.cache.tables| < MAX_READERS
    case RestoreOp(r, n) => r in d.cache.tables && r in d.tokens && n <= |d.tokens[r]|
    case AppendOp(r, l, n) =>
      && r in d.cache.tables && r in d.tokens && l < |d.cache.tables[r].layers| && n > 0
      && d.cache.tables[r].layers[l].count + n <= |d.tokens[r]|
    case TruncateOp(r, target) => r in d.cache.tables && AtOrAboveCursor(d.cache, r, target)
    case RetokenOp(r, tokens) => r in d.cache.tables && r in d.tokens && AgreesOnCached(d.cache.tables[r], d.tokens[r], tokens)
    case PublishOp(r) =>
      && r in d.cache.tables && r in d.tokens && BlocksComplete(d.cache.shared, d.cache.tables[r])
      && CachedCount(d.cache.tables[r]) <= |d.tokens[r]|
    case RemoveOp(r) => r in d.cache.tables
  }

  /** One operation. The operations are defined on well-formed caches; that every state of a run is one
      is part of what the run theorem proves. */
  ghost function After(d: Driver, kv: KvFunction, op: Op): Driver
    requires CacheOk(d.cache) && Allowed(d, op)
  {
    var c := d.cache;
    match op
    case StartOp(r, input) => Driver(Started(c, r), d.tokens[r := input])
    case RestoreOp(r, n) => d.(cache := Applied(c, r, Restore(c.shared, c.tables[r], d.tokens[r][..n])))
    case AppendOp(r, l, n) =>
      var count := c.tables[r].layers[l].count;
      d.(cache := Applied(c, r, Append(c.shared, c.tables[r], l, count, NextEntries(kv, l, d.tokens[r], count, n))))
    case TruncateOp(r, target) => d.(cache := Applied(c, r, Truncate(c.shared, c.tables[r], target)))
    case RetokenOp(r, tokens) => d.(tokens := d.tokens[r := tokens])
    case PublishOp(r) => d.(cache := Applied(c, r, Publish(c.shared, c.tables[r], d.tokens[r])))
    case RemoveOp(r) => d.(cache := Removed(c, r))
  }

  ghost predicate Good(d: Driver, kv: KvFunction) {
    Inv(d.cache) && Sound(d.cache, kv, d.tokens)
  }

  lemma GoodIsWellFormed(d: Driver, kv: KvFunction)
    requires Good(d, kv)
    ensures CacheOk(d.cache)
  {
  }

  /** One operation keeps page ownership exact, every entry right, and every other request's views. */
  lemma StepKeepsGood(d: Driver, kv: KvFunction, op: Op)
    requires Good(d, kv) && Allowed(d, op)
    ensures CacheOk(d.cache) && Good(After(d, kv, op), kv)
    ensures OthersUnaffected(d.cache, After(d, kv, op).cache, op.request)
  {
    hide CacheOk, LedgerOk, Sound, Append, Restore, Truncate, Publish, AtOrAboveCursor, AgreesOnCached, BlocksComplete, Removed, Started,
      OthersUnaffected;
    GoodIsWellFormed(d, kv);
    StepKeepsOthers(d, kv, op);
    if op.RestoreOp? || op.AppendOp? || op.PublishOp? {
      GrowingStepKeepsGood(d, kv, op);
    } else {
      OtherStepKeepsGood(d, kv, op);
    }
  }

  /** Every request but r has the same entries in every layer as before. */
  ghost predicate OthersUnaffected(c: Cache, c': Cache, r: RequestId) {
    CacheOk(c) && CacheOk(c') && forall x, l: nat :: x != r ==> ViewKept(c, c', x, l)
  }

  lemma StepKeepsOthers(d: Driver, kv: KvFunction, op: Op)
    requires Inv(d.cache) && CacheOk(d.cache) && Allowed(d, op)
    ensures OthersUnaffected(d.cache, After(d, kv, op).cache, op.request)
  {
    hide CacheOk, LedgerOk, Append, Restore, Truncate, Publish, AtOrAboveCursor, AgreesOnCached, BlocksComplete, Removed, Started, ViewKept;
    var ledger: Ledger :| Consistent(d.cache, ledger);
    var c := d.cache;
    match op
    case StartOp(r, _) => StartExact(c, ledger, r);
    case RestoreOp(r, n) => var _ := RestoreExact(c, ledger, r, d.tokens[r][..n]);
    case AppendOp(r, l, n) => AppendKeepsOthers(c, ledger, r, l, NextEntries(kv, l, d.tokens[r], c.tables[r].layers[l].count, n));
    case TruncateOp(r, target) => var _ := TruncateExact(c, ledger, r, target);
    case RetokenOp(_, _) => SameCacheKept(c);
    case PublishOp(r) => var _ := PublishExact(c, ledger, r, d.tokens[r]);
    case RemoveOp(r) => var _ := RemoveExact(c, ledger, r);
  }

  lemma SameCacheKept(c: Cache)
    requires CacheOk(c)
    ensures forall x, l: nat :: ViewKept(c, c, x, l)
  {
    hide View;
  }

  lemma AppendKeepsOthers(c: Cache, ledger: Ledger, r: RequestId, l: nat, values: seq<KvEntry>)
    requires Consistent(c, ledger) && r in c.tables && l < |c.tables[r].layers|
    ensures OthersUnaffected(c, Applied(c, r, Append(c.shared, c.tables[r], l, c.tables[r].layers[l].count, values)), r)
  {
    hide CacheOk, LedgerOk, Append, ViewKept, View, AppendAccepted;
    var _ := AppendExact(c, ledger, r, l, c.tables[r].layers[l].count, values);
    SameCacheKept(c);
  }

  lemma GrowingStepKeepsGood(d: Driver, kv: KvFunction, op: Op)
    requires Good(d, kv) && Allowed(d, op) && CacheOk(d.cache)
    requires op.RestoreOp? || op.AppendOp? || op.PublishOp?
    ensures Good(After(d, kv, op), kv)
  {
    hide CacheOk, LedgerOk, Sound, Append, Restore, Truncate, Publish, AtOrAboveCursor, AgreesOnCached, BlocksComplete, Removed, Started;
    var ledger: Ledger :| Consistent(d.cache, ledger);
    var c := d.cache;
    match op
    case RestoreOp(r, n) =>
      var _ := RestoreSound(c, ledger, r, d.tokens[r][..n], kv, d.tokens);
    case AppendOp(r, l, n) =>
      var values := NextEntries(kv, l, d.tokens[r], c.tables[r].layers[l].count, n);
      var _ := AppendSound(c, ledger, r, l, values, kv, d.tokens);
    case PublishOp(r) =>
      var _ := PublishSound(c, ledger, r, d.tokens[r], kv, d.tokens);
  }

  lemma OtherStepKeepsGood(d: Driver, kv: KvFunction, op: Op)
    requires Good(d, kv) && Allowed(d, op) && CacheOk(d.cache)
    requires !(op.RestoreOp? || op.AppendOp? || op.PublishOp?)
    ensures Good(After(d, kv, op), kv)
  {
    hide CacheOk, LedgerOk, Sound, Append, Restore, Truncate, Publish, AtOrAboveCursor, AgreesOnCached, BlocksComplete, Removed, Started;
    var ledger: Ledger :| Consistent(d.cache, ledger);
    var c := d.cache;
    match op
    case StartOp(r, input) =>
      StartSound(c, ledger, r, kv, d.tokens, input);
    case TruncateOp(r, target) =>
      var _ := TruncateSound(c, ledger, r, target, kv, d.tokens);
    case RetokenOp(r, tokens) =>
      RetokenSound(c, ledger, r, kv, d.tokens, tokens);
    case RemoveOp(r) =>
      var _ := RemoveSound(c, ledger, r, kv, d.tokens);
  }

  /** A run: each state is the allowed successor of the one before it. */
  ghost predicate IsRun(states: seq<Driver>, ops: seq<Op>, kv: KvFunction) {
    && |states| == |ops| + 1
    && forall i :: 0 <= i < |ops| ==> RunStep(states[i], ops[i], states[i + 1], kv)
  }

  ghost predicate RunStep(d: Driver, op: Op, d': Driver, kv: KvFunction) {
    CacheOk(d.cache) ==> Allowed(d, op) && d' == After(d, kv, op)
  }

  /** In every run, after every operation: page states are exact owner counts, each cursor names an
      indexed block whose pages its request holds, every page and view holds the right entries, and no
      operation changes what another request sees. */
  lemma {:induction false} RunKeepsGood(states: seq<Driver>, ops: seq<Op>, kv: KvFunction, n: nat)
    requires IsRun(states, ops, kv) && Good(states[0], kv) && n <= |ops|
    ensures Good(states[n], kv)
    ensures n < |ops| ==> OthersUnaffected(states[n].cache, states[n + 1].cache, ops[n].request)
    decreases n
  {
    hide Good, Allowed, After, CacheOk, OthersUnaffected;
    if n > 0 {
      RunKeepsGood(states, ops, kv, n - 1);
      GoodIsWellFormed(states[n - 1], kv);
      assert RunStep(states[n - 1], ops[n - 1], states[n - 1 + 1], kv);
      StepKeepsGood(states[n - 1], kv, ops[n - 1]);
    }
    if n < |ops| {
      GoodIsWellFormed(states[n], kv);
      assert RunStep(states[n], ops[n], states[n + 1], kv);
      StepKeepsGood(states[n], kv, ops[n]);
    }
  }

  /** The cursor of every live request names a block that is still indexed, and the request's tables
      hold that block's pages in every layer, so they keep it from being evicted. */
  lemma CursorProtected(c: Cache, r: RequestId)
    requires Inv(c) && r in c.tables && c.tables[r].path != []
    ensures c.tables[r].path in c.shared.trie
    ensures forall l :: 0 <= l < c.shared.layerCount ==>
              && l < |c.tables[r].layers| && |c.tables[r].path| <= |c.tables[r].layers[l].pages|
              && c.tables[r].layers[l].pages[|c.tables[r].path| - 1] == c.shared.trie[c.tables[r].path].pages[l]
    ensures !IsEvictable(c.shared.trie, c.shared.pool, c.tables[r].path)
  {
    var ledger: Ledger :| Consistent(c, ledger);
    hide StampsOk, FreeListExact;
    var q := c.tables[r].path;
    assert q[..|q|] == q;
    forall l | 0 <= l < c.shared.layerCount
      ensures |q| <= |c.tables[r].layers[l].pages| && c.tables[r].layers[l].pages[|q| - 1] == c.shared.trie[q].pages[l]
    {
      assert LayerOk(c.shared, c.tables[r], l);
      assert q[..|q| - 1 + 1] == q;
    }
    var o := Indexed(q, 0);
    assert IsSlot(c, o) && ledger[PageAt(c, o)] == o && r in Users(c.tables, q);
  }

  /** After any truncation within the layers' lengths, the layer's next write finds a writable page (or
      opens a new one) exactly when the cut is at or above the cursor or falls on a page boundary: below
      the cursor the kept partial page belongs to the index. */
  lemma TruncationLeavesWritablePage(c: Cache, ledger: Ledger, r: RequestId, l: nat, target: nat)
    requires Consistent(c, ledger) && r in c.tables && l < c.shared.layerCount
    requires l < |c.tables[r].layers| && WithinAllLayers(c.tables[r], target)
    ensures CeilDiv(target, c.shared.pool.pageTokens) <= |c.tables[r].layers[l].pages|
    ensures NextWriteAllowed(Truncate(c.shared, c.tables[r], target), l) <==>
            AtOrAboveCursor(c, r, target) || Mod(target, c.shared.pool.pageTokens) == 0
  {
    hide Truncate, Consistent, Div, Mod, CeilDiv;
    KeptPagesExist(c, ledger, r, target, l);
    TruncateShape(c, ledger, r, target, l);
    if Mod(target, c.shared.pool.pageTokens) != 0 {
      CeilDivBounds(target, c.shared.pool.pageTokens);
      PartialPageWritable(c, ledger, r, l, target);
      KeptPageState(c, ledger, r, target, l);
    }
  }

  lemma KeptPagesExist(c: Cache, ledger: Ledger, r: RequestId, target: nat, l: nat)
    requires Consistent(c, ledger) && r in c.tables && l < c.shared.layerCount
    requires l < |c.tables[r].layers| && WithinAllLayers(c.tables[r], target)
    ensures CeilDiv(target, c.shared.pool.pageTokens) <= |c.tables[r].layers[l].pages| && c.shared.pool.pageTokens > 0
    ensures Mod(target, c.shared.pool.pageTokens) != 0 ==> target > 0
  {
    hide LedgerOk, StampsOk, FreeListExact, NodesShaped, PrefixClosed;
    assert LayerOk(c.shared, c.tables[r], l);
    CeilDivMonotone(target, c.tables[r].layers[l].count, c.shared.pool.pageTokens);
  }

  /** The last page a truncation keeps may be written exactly when it lies above the cursor. */
  lemma PartialPageWritable(c: Cache, ledger: Ledger, r: RequestId, l: nat, target: nat)
    requires Consistent(c, ledger) && r in c.tables && l < c.shared.layerCount && l < |c.tables[r].layers|
    requires c.shared.pool.pageTokens > 0 && Mod(target, c.shared.pool.pageTokens) != 0
    requires 0 < CeilDiv(target, c.shared.pool.pageTokens) <= |c.tables[r].layers[l].pages|
    ensures var p := c.tables[r].layers[l].pages[CeilDiv(target, c.shared.pool.pageTokens) - 1];
            p < |c.shared.pool.states| && (c.shared.pool.states[p].IsWritable() <==> AtOrAboveCursor(c, r, target))
  {
    hide Div, Mod, CeilDiv, PrefixClosed, StampsOk, FreeListExact, NodesShaped, Users;
    var i := CeilDiv(target, c.shared.pool.pageTokens) - 1;
    PageInLedger(c, ledger, r, l, i);
    CursorOrder(|c.tables[r].path|, target, c.shared.pool.pageTokens);
    hide CacheOk;
  }

  lemma TruncateShape(c: Cache, ledger: Ledger, r: RequestId, target: nat, l: nat)
    requires Consistent(c, ledger) && r in c.tables && l < |c.tables[r].layers|
    requires WithinAllLayers(c.tables[r], target)
    requires CeilDiv(target, c.shared.pool.pageTokens) <= |c.tables[r].layers[l].pages|
    ensures var step := Truncate(c.shared, c.tables[r], target);
            && |step.table.layers| == |c.tables[r].layers|
            && step.table.layers[l] == LayerTable(c.tables[r].layers[l].pages[..CeilDiv(target, c.shared.pool.pageTokens)], target)
            && step.shared.pool.pageTokens == c.shared.pool.pageTokens
  {
    hide Div, Mod, CeilDiv, PrefixClosed, StampsOk, FreeListExact, NodesShaped, ReleaseAll, LayerOk;
    ReleaseTail(c, ledger, r, CeilDiv(target, c.shared.pool.pageTokens));
  }

  /** A truncation leaves the state of the last page it keeps alone. */
  lemma KeptPageState(c: Cache, ledger: Ledger, r: RequestId, target: nat, l: nat)
    requires Consistent(c, ledger) && r in c.tables && l < |c.tables[r].layers|
    requires WithinAllLayers(c.tables[r], target)
    requires 0 < CeilDiv(target, c.shared.pool.pageTokens) <= |c.tables[r].layers[l].pages|
    ensures var keep := CeilDiv(target, c.shared.pool.pageTokens);
            var step := Truncate(c.shared, c.tables[r], target);
            var id := c.tables[r].layers[l].pages[keep - 1];
            && step.table == CutTable(c.tables[r], keep, target) && step.shared.pool.pageTokens == c.shared.pool.pageTokens
            && id < |step.shared.pool.states| == |c.shared.pool.states| && step.shared.pool.states[id] == c.shared.pool.states[id]
  {
    hide Div, Mod, CeilDiv, PrefixClosed, StampsOk, FreeListExact, NodesShaped, ReleaseAll, LayerOk;
    var keep := CeilDiv(target, c.shared.pool.pageTokens);
    ReleaseTail(c, ledger, r, keep);
    PageInLedger(c, ledger, r, l, keep - 1);
    assert !InTail(c, r, keep, OccurrenceSlot(c, r, l, keep - 1));
  }

  ghost predicate NextWriteAllowed(step: Step, l: nat) {
    && l < |step.table.layers| && step.shared.pool.pageTokens > 0
    && (Mod(step.table.layers[l].count, step.shared.pool.pageTokens) == 0 ||
        (step.table.layers[l].pages != [] && Last(step.table.layers[l].pages) < |step.shared.pool.states| &&
         step.shared.pool.states[Last(step.table.layers[l].pages)].IsWritable()))
  }

  lemma CursorOrder(blocks: nat, target: nat, size: nat)
    requires size > 0 && Mod(target, size) != 0
    ensures target >= blocks * size <==> CeilDiv(target, size) - 1 >= blocks
  {
    CeilDivForm(target, size);
    DivMod(target, size);
    hide Div, Mod, CeilDiv;
    var k, j := Div(target, size), Mod(target, size);
    var gap: int := k - blocks;
    assert target - blocks * size == gap * size + j;
    assert gap >= 0 ==> gap * size >= 0;
    assert gap <= -1 ==> gap * size <= -1 * size;
  }
}
