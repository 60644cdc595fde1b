/** The paged cache as the object that ties the page pool, the prefix index and a request's tables
    together. Every method computes the cache operation of the same name on the objects' values, so
    the theorems about those operations hold of the objects. */
module PagedKvCacheObject {
  import opened Common
  import opened Arithmetic
  import opened CacheErrors
  import opened PagePool
  import opened PagePoolObject
  import opened PrefixTrie
  import opened PrefixBlockMap
  import opened PrefixIndexObject
  import opened PagedCacheSpec
  import opened RequestCacheStateObject

  class PagedKvCache {
    const pool: PhysicalPagePool
    const index: PrefixBlockIndex?
    const layerCount: nat

    ghost function Footprint(): set<object> {
      {pool, pool.pageStates, pool.storedPages} + (if index == null then {} else {index})
    }

    ghost function Value(): Shared
      reads Footprint()
    {
      if index == null then Shared(false, layerCount, pool.Value(), map[], 0)
      else Shared(true, layerCount, pool.Value(), index.Trie(), index.clock)
    }

    ghost predicate Valid()
      reads Footprint()
    {
      && pool.Valid() && layerCount > 0
      && (index != null ==> index.Valid() && index.blockTokens == pool.pageTokens)
      && SharedShaped(Value())
    }

    ghost predicate KnowsPath(u: Path)
      reads if index == null then {} else {index}
    {
      index != null && index.Indexed(u)
    }

    ghost function CursorOf(u: Path): Cursor
      requires KnowsPath(u)
      reads if index == null then {} else {index}
    {
      index.CursorAt(u)
    }

    /** The request's cursor is the one that stands for its path. */
    ghost predicate Linked(t: RequestPagedCacheState)
      reads Footprint(), t
    {
      && t.pageTokens == pool.pageTokens
      && (index != null ==> KnowsPath(t.path) && t.cursor == CursorOf(t.path))
    }

    /** If the index knows the request's path, then by the request's cursor. */
    ghost predicate Remembers(t: RequestPagedCacheState)
      reads if index == null then {} else {index}, t
    {
      t.pageTokens == pool.pageTokens && (index != null && KnowsPath(t.path) ==> t.cursor == CursorOf(t.path))
    }

    lemma IndexedPathKnown(u: Path)
      requires Valid() && (u == [] || u in Value().trie)
      ensures index != null ==> KnowsPath(u)
    {
    }

    lemma RootIsLinked(t: RequestPagedCacheState)
      requires t.pageTokens == pool.pageTokens && t.path == [] && t.cursor == ROOT
      ensures Linked(t)
    {
      if index != null { RootCursor(index.Value(), index.naming); }
    }

    constructor (enablePrefixCaching: bool, layers: nat, tokensPerPage: nat, pageCount: nat, filler: KvEntry)
      requires layers > 0 && tokensPerPage > 0
      ensures Valid() && fresh(Footprint())
      ensures Value() == Shared(enablePrefixCaching, layers, FreshPool(tokensPerPage, pageCount, filler), map[], 0)
    {
      hide SharedShaped, Represents, TrieOf, IdOf, KeyOption, FreshPool;
      FreshShaped(enablePrefixCaching, layers, tokensPerPage, pageCount, filler);
      pool := new PhysicalPagePool(tokensPerPage, pageCount, filler);
      if enablePrefixCaching {
        index := new PrefixBlockIndex(tokensPerPage);
      } else {
        index := null;
      }
      layerCount := layers;
    }

    /** Attaches the longest reusable prefix to the request. */
    method RestoreCachedPrefix(t: RequestPagedCacheState, tokens: seq<Token>) returns (r: Result<nat>)
      requires Valid() && Linked(t) && TableShaped(Value(), t.Value())
      modifies Footprint(), t
      ensures Valid() && Linked(t)
      ensures Step(Value(), t.Value(), r) == Restore(old(Value()), old(t.Value()), tokens)
      ensures forall u :: old(KnowsPath(u)) ==> KnowsPath(u) && CursorOf(u) == old(CursorOf(u))
    {
      hide Represents, Touch, TrieOf, IdOf, KeyOption, RowsCollected, Blocks, MatchedPath, RetainAll, Restore, SharedShaped, SameLinks;
      ghost var s, own := Value(), t.Value();
      RestoreRefused(s, own, tokens);
      if index == null { return Ok(0); }
      if IsPopulated(Table(t.layers, [])) { return Err(TableAlreadyPopulated); }
      ghost var before := index.Value();
      ShapedParts(s);
      var rows, cursor, path := index.FindLongestCachedPrefix(tokens, layerCount);
      LookupRows(s, tokens, path, rows);
      KnownByLinks(before, index.Value(), index.naming);
      var failed := pool.RetainAll(Flatten(rows));
      RestoredShape(s, path, rows);
      if failed.Some? {
        RestoreFails(s, own, tokens, path, rows);
        return Err(failed.value);
      }
      t.AttachCachedPrefix(rows, cursor, path);
      AttachedIsRestored(s, own, tokens, path, rows, t.Value());
      r := Ok(if t.layers == [] then 0 else t.layers[0].count);
    }

    /** Evicts inactive least recently used leaves until the append fits or none is left. */
    method EnsureAppendCapacity(required: nat) returns (error: Option<CacheError>)
      requires Valid() && StampsOk(Value().trie, Value().clock)
      modifies Footprint()
      ensures Valid() && StampsOk(Value().trie, Value().clock)
      ensures SharedStep(Value(), error) == EvictUntil(old(Value()), required)
      ensures forall u :: old(KnowsPath(u)) && KnowsPath(u) ==> CursorOf(u) == old(CursorOf(u))
    {
      hide Represents, TrieOf, IdOf, KeyOption, Victim, StampsOk, ReleaseAll, EvictUntil, SharedShaped;
      while |pool.freePageIds| < required
        invariant Valid() && StampsOk(Value().trie, Value().clock)
        invariant EvictUntil(Value(), required) == EvictUntil(old(Value()), required)
        invariant forall u :: KnowsPath(u) ==> old(KnowsPath(u)) && CursorOf(u) == old(CursorOf(u))
        decreases |Value().trie|
      {
        ghost var s := Value();
        EvictUnfold(s, required);
        if index == null { return None; }
        ShapedParts(s);
        var evicted := index.EvictLeastRecentlyUsedLeaf(pool);
        if evicted.None? { return None; }
        var failed := pool.ReleaseAll(evicted.value);
        EvictedShape(s, required, Value(), failed);
        if failed.Some? { return failed; }
      }
      EvictUnfold(Value(), required);
      error := None;
    }

    /** Takes a page for a layer whose last one is full. */
    method OpenPage(t: RequestPagedCacheState, l: nat) returns (error: Option<CacheError>)
      requires pool.Valid() && LayerInRange(Value(), t.Value(), l)
      modifies pool, pool.pageStates, t`layers
      ensures pool.Valid()
      ensures match PagedCacheSpec.OpenPage(old(Value()), old(t.Value()), l)
              case Err(e) => error == Some(e) && Value() == old(Value()) && t.Value() == old(t.Value())
              case Ok((s1, t1)) => error == None && Value() == s1 && t.Value() == t1
    {
      hide TrieOf;
      if Mod(t.layers[l].count, pool.pageTokens) != 0 { return None; }
      var taken := pool.Allocate();
      if taken.Err? { return Some(taken.error); }
      t.AppendPage(l, taken.value);
      error := None;
    }

    /** Fills the current page, or opens the next one when it is full. */
    method AppendOneChunk(t: RequestPagedCacheState, l: nat, values: seq<KvEntry>) returns (r: Result<nat>)
      requires pool.Valid() && LayerInRange(Value(), t.Value(), l) && values != []
      modifies pool, pool.pageStates, pool.storedPages, t`layers
      ensures pool.Valid()
      ensures Step(Value(), t.Value(), r) == AppendChunk(old(Value()), old(t.Value()), l, values)
    {
      hide TrieOf, PagedCacheSpec.OpenPage;
      ghost var s, own := Value(), t.Value();
      OpenedInRange(s, own, l);
      var refused := OpenPage(t, l);
      if refused.Some? { return Err(refused.value); }
      var pages, offset := t.layers[l].pages, Mod(t.layers[l].count, pool.pageTokens);
      if pages == [] { return Err(InvalidPage); }
      var n := Min(pool.pageTokens - offset, |values|);
      var failed := pool.WritePage(pages[|pages| - 1], offset, values[..n]);
      if failed.Some? { return Err(failed.value); }
      t.RecordAppendedTokens(l, n);
      r := Ok(n);
    }

    /** Fills pages chunk by chunk. */
    method AppendToPages(t: RequestPagedCacheState, l: nat, values: seq<KvEntry>) returns (r: Result<nat>)
      requires Valid() && LayerInRange(Value(), t.Value(), l)
      modifies pool, pool.pageStates, pool.storedPages, t`layers
      ensures Valid()
      ensures Step(Value(), t.Value(), r) == AppendChunks(old(Value()), old(t.Value()), l, values)
    {
      hide Represents, TrieOf, SharedShaped, AppendChunks, AppendChunk, NodesShaped;
      var at := 0;
      assert values[0..] == values;
      while at < |values|
        invariant at <= |values| && Valid() && LayerInRange(Value(), t.Value(), l)
        invariant AppendChunks(Value(), t.Value(), l, values[at..]) == AppendChunks(old(Value()), old(t.Value()), l, values)
        decreases |values| - at
      {
        ghost var s, own := Value(), t.Value();
        ChunksUnfold(s, own, l, values[at..]);
        ChunkShape(s, own, l, values[at..]);
        var one := AppendOneChunk(t, l, values[at..]);
        if one.Err? { return one; }
        assert values[at..][one.value..] == values[at + one.value..];
        at := at + one.value;
      }
      ChunksUnfold(Value(), t.Value(), l, values[at..]);
      r := Ok(t.layers[l].count);
    }

    method AppendNewKeyValue(t: RequestPagedCacheState, l: nat, start: nat, values: seq<KvEntry>) returns (r: Result<nat>)
      requires Valid() && TableShaped(Value(), t.Value()) && StampsOk(Value().trie, Value().clock)
      modifies Footprint(), t`layers
      ensures Valid()
      ensures Step(Value(), t.Value(), r) == Append(old(Value()), old(t.Value()), l, start, values)
      ensures forall u :: old(KnowsPath(u)) && KnowsPath(u) ==> CursorOf(u) == old(CursorOf(u))
    {
      hide Represents, TrieOf, SharedShaped, AppendChunks, EvictUntil, Append, StampsOk, IdOf, KeyOption;
      ghost var s, own := Value(), t.Value();
      AppendUnfold(s, own, l, start, values);
      if l >= |t.layers| { return Err(InvalidLayer); }
      if start != t.layers[l].count { return Err(WrongStartPosition); }
      if values == [] { return Err(EmptyAppend); }
      var required := RequiredPages(pool.pageTokens, t.layers[l].count, |values|);
      EvictKeepsShape(s, required);
      var failed := EnsureAppendCapacity(required);
      if failed.Some? { return Err(failed.value); }
      if required > |pool.freePageIds| { return Err(InsufficientCapacity(required, |pool.freePageIds|)); }
      r := AppendToPages(t, l, values);
    }

    /** Publishes the complete blocks the request has cached beyond its cursor. */
    method PublishCompletedPrefix(t: RequestPagedCacheState, tokens: seq<Token>) returns (r: Result<nat>)
      requires Valid() && Linked(t) && TableShaped(Value(), t.Value())
      modifies Footprint(), t
      ensures Valid() && Linked(t)
      ensures Step(Value(), t.Value(), r) == Publish(old(Value()), old(t.Value()), tokens)
      ensures forall u :: old(KnowsPath(u)) ==> KnowsPath(u) && CursorOf(u) == old(CursorOf(u))
    {
      hide Represents, TrieOf, IdOf, KeyOption, Publish, SharedShaped, NamesKept, IndexedAs, InTables, IndexedForTable,
        Blocks, TableShaped, Publishable, CommitPublication, PublishedTable, PublishedTrie, PublicationPath;
      ghost var s, own := Value(), t.Value();
      PublishRefused(s, own, tokens);
      if index == null { return Ok(0); }
      ShapedParts(s);
      TableParts(s, own);
      var count := if t.layers == [] then 0 else t.layers[0].count;
      if |tokens| < count { return Err(TooFewTokens); }
      ghost var before, names := index.Value(), index.naming;
      KnownInTrie(before, names, t.path);
      var indexed := index.IndexCachedSequence(t.cursor, tokens[..count], t.layers, t.path);
      KnownByNames(before, names, index.Value(), index.naming);
      IndexingOutcome(s, own, tokens, index.Trie(), indexed);
      if indexed.Err? { return Err(indexed.error); }
      ghost var full := PublicationPath(s, own, tokens);
      r := CommitPages(t, indexed.value, s, full, MatchFrom(s.trie, full, |own.path|));
    }

    /** The page work of a publication: retain the newly indexed and the canonical pages, switch the
        request's tables, release the pages they no longer hold. */
    method CommitPages(t: RequestPagedCacheState, done: Indexing, ghost s: Shared, ghost full: Path, ghost m: nat)
        returns (r: Result<nat>)
      requires Valid() && index != null && Linked(t) && IndexedForTable(s, t.Value(), full, m, done)
      requires Value() == Shared(s.enabled, s.layerCount, s.pool, PublishedTrie(s, t.Value(), full, m), s.clock + 1)
      requires index.Indexed(full) && done.cursor == index.CursorAt(full)
      modifies pool, pool.pageStates, t
      ensures Valid() && Linked(t)
      ensures Step(Value(), t.Value(), r) == CommitPublication(s, old(t.Value()), full, m)
    {
      hide Represents, TrieOf, IdOf, KeyOption, SharedShaped, RetainAll, ReleaseAll, InTables, Adopted, TakenOut, PagesOf,
        Publishable, CommitPublication, PublishedTable, PublishedTrie, IndexedForTable;
      ghost var now, own := Value(), t.Value();
      CommitStops(s, own, full, m, done);
      RetainedShared(now, done.newPages);
      var failed := pool.RetainAll(done.newPages);
      if failed.Some? { return Err(failed.value); }
      RetainedShared(Value(), PagesOf(done.replacements));
      failed := pool.RetainAll(PagesOf(done.replacements));
      if failed.Some? { return Err(failed.value); }
      CommitCompletes(s, own, full, m, done);
      var replaced := t.RecordPrefixPublication(done, full);
      ReleasedShared(Value(), replaced);
      failed := pool.ReleaseAll(replaced);
      r := if failed.Some? then Err(failed.value) else Ok(done.blockCount * pool.pageTokens);
    }

    /** Reads the pages of a layer in table order and concatenates their valid parts. */
    method ReconstructContiguous(t: RequestPagedCacheState, l: nat) returns (r: Result<seq<KvEntry>>)
      requires Valid() && (l < |t.layers| ==> ViewDefined(pool.Value(), t.layers[l]))
      ensures l >= |t.layers| ==> r == Err(InvalidLayer)
      ensures l < |t.layers| && t.layers[l].pages == [] ==> r == Err(NothingCached)
      ensures l < |t.layers| && t.layers[l].pages != [] ==> r == Ok(View(pool.Value(), t.layers[l]))
    {
      if l >= |t.layers| { return Err(InvalidLayer); }
      var layer := t.layers[l];
      if layer.pages == [] { return Err(NothingCached); }
      var size := pool.pageTokens;
      ghost var p := pool.Value();
      hide Div, Mod, CeilDiv, TrieOf, Represents, SharedShaped;
      var values: seq<KvEntry> := [];
      var remaining := layer.count;
      for j := 0 to |layer.pages|
        invariant remaining + |values| == layer.count && |values| == Min(j * size, layer.count)
        invariant forall i :: 0 <= i < |values| ==> values[i] == EntryAt(p, layer, i)
      {
        var n := Min(size, remaining);
        PageSlice(p, layer, j, |values|, n);
        values := values + pool.storedPages[layer.pages[j]][..n];
        remaining := remaining - n;
      }
      CeilDivBounds(layer.count, size);
      ScaledOrder(CeilDiv(layer.count, size), |layer.pages|, size);
      assert values == View(p, layer);
      r := Ok(values);
    }

    method Truncate(t: RequestPagedCacheState, target: nat) returns (r: Result<nat>)
      requires Valid() && Linked(t)
      modifies pool, pool.pageStates, t`layers
      ensures Valid() && Linked(t)
      ensures Step(Value(), t.Value(), r) == PagedCacheSpec.Truncate(old(Value()), old(t.Value()), target)
      ensures forall u :: old(KnowsPath(u)) ==> KnowsPath(u) && CursorOf(u) == old(CursorOf(u))
    {
      hide Represents, TrieOf, IdOf, KeyOption, ReleaseAll;
      var cut := t.Truncate(target);
      if cut.Err? { return Err(cut.error); }
      ReleaseAllKeepsShape(pool.Value(), cut.value);
      var failed := pool.ReleaseAll(cut.value);
      r := if failed.Some? then Err(failed.value) else Ok(target);
    }

    method ResetRequest(t: RequestPagedCacheState) returns (r: Result<nat>)
      requires Valid() && Linked(t)
      modifies pool, pool.pageStates, t
      ensures Valid() && Linked(t)
      ensures Step(Value(), t.Value(), r) == Reset(old(Value()), old(t.Value()))
      ensures forall u :: old(KnowsPath(u)) ==> KnowsPath(u) && CursorOf(u) == old(CursorOf(u))
    {
      hide Represents, TrieOf, IdOf, KeyOption, ReleaseAll;
      var released := t.Reset();
      ReleaseAllKeepsShape(pool.Value(), released);
      var failed := pool.ReleaseAll(released);
      if index != null { RootCursor(index.Value(), index.naming); }
      r := if failed.Some? then Err(failed.value) else Ok(0);
    }
  }

  /** Opening a page changes no token count and keeps the layer's pages within the pool. */
  lemma OpenedInRange(s: Shared, t: Table, l: nat)
    requires LayerInRange(s, t, l)
    ensures match OpenPage(s, t, l)
            case Err(_) => true
            case Ok((s', t')) =>
              && LayerInRange(s', t', l) && t'.layers[l].count == t.layers[l].count && s'.pool.pageTokens == s.pool.pageTokens
  {
  }

  /** The next page of a reconstruction holds the next entries. */
  lemma PageSlice(p: Pool, layer: LayerTable, j: nat, done: nat, n: nat)
    requires ViewDefined(p, layer) && j < |layer.pages| && done == Min(j * p.pageTokens, layer.count)
    requires n == Min(p.pageTokens, layer.count - done)
    ensures layer.pages[j] < |p.pages| && n <= |p.pages[layer.pages[j]]|
    ensures done + n == Min((j + 1) * p.pageTokens, layer.count)
    ensures forall i :: 0 <= i < n ==> p.pages[layer.pages[j]][i] == EntryAt(p, layer, done + i)
  {
    assert (j + 1) * p.pageTokens == j * p.pageTokens + p.pageTokens;
    forall i | 0 <= i < n
      ensures p.pages[layer.pages[j]][i] == EntryAt(p, layer, done + i)
    {
      DivUnique(done + i, p.pageTokens, j, i);
    }
  }

  // ---- Publication as the objects carry it out ---------------------------------------------------

  lemma RetainedShared(s: Shared, ids: seq<PageId>)
    requires SharedShaped(s)
    ensures SharedShaped(s.(pool := RetainAll(s.pool, ids).pool)) && RetainAll(s.pool, ids).pool.pageTokens == s.pool.pageTokens
  {
    RetainShapes(s.pool, ids);
  }

  lemma ReleasedShared(s: Shared, ids: seq<PageId>)
    requires SharedShaped(s)
    ensures SharedShaped(s.(pool := ReleaseAll(s.pool, ids).pool)) && ReleaseAll(s.pool, ids).pool.pageTokens == s.pool.pageTokens
  {
    ReleaseAllKeepsShape(s.pool, ids);
  }

  lemma TableParts(s: Shared, t: Table)
    requires TableShaped(s, t)
    ensures |t.layers| == s.layerCount
  {
  }

  lemma KnownInTrie(m: BlockMap, n: Naming, p: Path)
    requires Represents(m, n) && (p == [] || (p in n.keyOf && n.keyOf[p] in m.blocks))
    ensures PrefixClosed(TrieOf(m, n)) && (p != [] ==> p in TrieOf(m, n))
  {
    RepresentsNone(m, n);
    RepresentedIsPrefixClosed(m, n, None);
  }

  lemma KnownByNames(m: BlockMap, n: Naming, m': BlockMap, n': Naming)
    requires NamesKept(m, n, m', n')
    ensures forall u :: (u == [] || (u in n.keyOf && n.keyOf[u] in m.blocks)) ==>
              && (u == [] || (u in n'.keyOf && n'.keyOf[u] in m'.blocks))
              && IdOf(m', n', u) == IdOf(m, n, u) && KeyOption(n', u) == KeyOption(n, u)
  {
  }

  lemma PublishRefused(s: Shared, t: Table, tokens: seq<Token>)
    requires SharedShaped(s) && TableShaped(s, t)
    ensures !s.enabled ==> Publish(s, t, tokens) == Step(s, t, Ok(0))
    ensures s.enabled && |tokens| < CachedCount(t) ==> Publish(s, t, tokens) == Step(s, t, Err(TooFewTokens))
  {
    hide Blocks, MatchFrom, CommitPublication;
  }

  /** The path a publication moves the cursor to. */
  ghost function PublicationPath(s: Shared, t: Table, tokens: seq<Token>): Path {
    if s.pool.pageTokens == 0 || CachedCount(t) > |tokens| then []
    else
      var blocks := Blocks(tokens[..CachedCount(t)], s.pool.pageTokens);
      if |t.path| > |blocks| then [] else t.path + blocks[|t.path|..]
  }

  /** After indexing: either the publication was refused, or what remains is the page work. */
  lemma IndexingOutcome(s: Shared, t: Table, tokens: seq<Token>, trie: Trie, indexed: Result<Indexing>)
    requires SharedShaped(s) && TableShaped(s, t) && s.enabled && CachedCount(t) <= |tokens|
    requires PrefixClosed(s.trie) && (t.path != [] ==> t.path in s.trie)
    requires IndexedAs(s.trie, trie, t.path, Blocks(tokens[..CachedCount(t)], s.pool.pageTokens), t.layers, indexed, s.clock)
    ensures NodesShaped(trie, s.pool.pageTokens, s.layerCount)
    ensures SharedShaped(s.(trie := trie, clock := s.clock + if indexed == Err(TooFewCachedPages) then 0 else 1))
    ensures indexed.Err? ==>
              Publish(s, t, tokens) ==
                Step(s.(trie := trie, clock := s.clock + if indexed == Err(TooFewCachedPages) then 0 else 1), t, Err(indexed.error))
    ensures indexed.Ok? ==>
              var blocks := Blocks(tokens[..CachedCount(t)], s.pool.pageTokens);
              var full := PublicationPath(s, t, tokens);
              var m := MatchFrom(s.trie, full, |t.path|);
              && |t.path| <= |blocks| && full == t.path + blocks[|t.path|..]
              && |t.path| <= |full| && Publishable(s, t, full, m) && Publish(s, t, tokens) == CommitPublication(s, t, full, m)
              && IndexedForTable(s, t, full, m, indexed.value) && trie == PublishedTrie(s, t, full, m)
  {
    hide PrefixClosed, NodesShaped, CommitPublication, PublishedTrie, IndexedForTable, PublicationPath, Blocks, Progress, AllDifferences,
      Flatten, MatchFrom;
    var blocks := Blocks(tokens[..CachedCount(t)], s.pool.pageTokens);
    BlocksShape(tokens[..CachedCount(t)], s.pool.pageTokens);
    PathOfPublication(s, t, tokens);
    if indexed.Err? {
      RefusedIndexing(s, t, tokens, trie, indexed);
    } else {
      var full := PublicationPath(s, t, tokens);
      PublishableFromCursor(s, t, full, blocks);
      AcceptedIndexing(s, t, tokens, trie, indexed);
      PublishedNodesShaped(s, t, full, MatchFrom(s.trie, full, |t.path|));
    }
  }

  lemma PathOfPublication(s: Shared, t: Table, tokens: seq<Token>)
    requires SharedShaped(s) && CachedCount(t) <= |tokens|
    ensures var blocks := Blocks(tokens[..CachedCount(t)], s.pool.pageTokens);
            PublicationPath(s, t, tokens) == if |t.path| > |blocks| then [] else t.path + blocks[|t.path|..]
  {
    hide Blocks;
  }

  lemma RefusedIndexing(s: Shared, t: Table, tokens: seq<Token>, trie: Trie, indexed: Result<Indexing>)
    requires SharedShaped(s) && TableShaped(s, t) && s.enabled && CachedCount(t) <= |tokens| && indexed.Err?
    requires IndexedAs(s.trie, trie, t.path, Blocks(tokens[..CachedCount(t)], s.pool.pageTokens), t.layers, indexed, s.clock)
    ensures trie == s.trie && NodesShaped(trie, s.pool.pageTokens, s.layerCount)
    ensures Publish(s, t, tokens) ==
              Step(s.(trie := trie, clock := s.clock + if indexed == Err(TooFewCachedPages) then 0 else 1), t, Err(indexed.error))
  {
    hide Blocks, MatchFrom, CommitPublication, Progress, AllDifferences, Flatten;
  }

  lemma PublishableFromCursor(s: Shared, t: Table, full: Path, blocks: Path)
    requires SharedShaped(s) && TableShaped(s, t) && |t.path| <= |blocks| && full == t.path + blocks[|t.path|..]
    requires forall l :: 0 <= l < |t.layers| ==> |blocks| <= |t.layers[l].pages|
    requires t.path != [] ==> t.path in s.trie
    ensures Publishable(s, t, full, MatchFrom(s.trie, full, |t.path|))
    ensures var m := MatchFrom(s.trie, full, |t.path|); m > 0 ==> full[..m] in s.trie
  {
    MatchedFromIndexed(s.trie, full, |t.path|);
    assert full[..|t.path|] == t.path;
  }

  /** What an indexing walk reports, in terms of the publication it is part of. */
  ghost predicate IndexedForTable(s: Shared, t: Table, full: Path, m: nat, done: Indexing) {
    && SharedShaped(s) && Publishable(s, t, full, m)
    && done.newPages == Flatten(NewRows(s, t, full, m)) && done.blockCount == |full| - m
    && InTables(t.layers, done.replacements)
    && PagesOf(done.replacements) == Flatten(CanonicalRows(s, t, full, m))
    && TakenOut(t.layers, done.replacements) == Flatten(ReplacedRows(s, t, full, m))
    && Adopted(t.layers, done.replacements) == PublishedTable(s, t, full, m).layers
  }

  lemma AcceptedIndexing(s: Shared, t: Table, tokens: seq<Token>, trie: Trie, indexed: Result<Indexing>)
    requires SharedShaped(s) && TableShaped(s, t) && s.enabled && CachedCount(t) <= |tokens| && indexed.Ok?
    requires IndexedAs(s.trie, trie, t.path, Blocks(tokens[..CachedCount(t)], s.pool.pageTokens), t.layers, indexed, s.clock)
    requires var blocks := Blocks(tokens[..CachedCount(t)], s.pool.pageTokens);
             |t.path| <= |blocks| && PublicationPath(s, t, tokens) == t.path + blocks[|t.path|..]
    requires var full := PublicationPath(s, t, tokens);
             var m := MatchFrom(s.trie, full, |t.path|);
             Publishable(s, t, full, m) && (m > 0 ==> full[..m] in s.trie)
    ensures var full := PublicationPath(s, t, tokens);
            var m := MatchFrom(s.trie, full, |t.path|);
            && Publish(s, t, tokens) == CommitPublication(s, t, full, m)
            && IndexedForTable(s, t, full, m, indexed.value) && trie == PublishedTrie(s, t, full, m)
  {
    hide Blocks, MatchFrom, CommitPublication, PublicationPath, SharedShaped;
    var full := PublicationPath(s, t, tokens);
    var m := MatchFrom(s.trie, full, |t.path|);
    PublishAccepted(s, t, tokens);
    hide Publish;
    WalkIsPublication(s, t, full, m, indexed.value);
    assert full[..|full|] == full;
  }

  lemma PublishAccepted(s: Shared, t: Table, tokens: seq<Token>)
    requires SharedShaped(s) && TableShaped(s, t) && s.enabled && CachedCount(t) <= |tokens|
    requires var blocks := Blocks(tokens[..CachedCount(t)], s.pool.pageTokens);
             |t.path| <= |blocks| && PublicationPath(s, t, tokens) == t.path + blocks[|t.path|..]
    requires var full := PublicationPath(s, t, tokens);
             var m := MatchFrom(s.trie, full, |t.path|);
             Publishable(s, t, full, m) && (m > 0 ==> full[..m] in s.trie)
    ensures var full := PublicationPath(s, t, tokens);
            Publish(s, t, tokens) == CommitPublication(s, t, full, MatchFrom(s.trie, full, |t.path|))
  {
    hide Blocks, MatchFrom, CommitPublication, SharedShaped, PublicationPath;
  }

  lemma WalkIsPublication(s: Shared, t: Table, full: Path, m: nat, done: Indexing)
    requires SharedShaped(s) && Publishable(s, t, full, m)
    requires done.newPages == Flatten(Columns(t, |full|)[m..]) && done.blockCount == |full| - m
    requires done.replacements == AllDifferences(s.trie, full, Columns(t, |full|), |t.path|, m)
    ensures IndexedForTable(s, t, full, m, done)
  {
    hide Flatten, AllDifferences, Adopted, TakenOut, PagesOf, SharedShaped, InTables, ReplacedRows, CanonicalRows;
    WalkPublishes(s, t, full, m, m);
    assert Columns(t, |full|)[m..] == NewRows(s, t, full, m);
    assert ReplacedRows(s, t, full, m)[..m - |t.path|] == ReplacedRows(s, t, full, m);
    assert CanonicalRows(s, t, full, m)[..m - |t.path|] == CanonicalRows(s, t, full, m);
    forall l | 0 <= l < |t.layers| ensures PartlyPublished(s, t, full, m, m)[l] == PublishedTable(s, t, full, m).layers[l] {
      assert PartlyPublished(s, t, full, m, m)[l].pages == PublishedTable(s, t, full, m).layers[l].pages;
    }
  }

  lemma PublishedNodesShaped(s: Shared, t: Table, full: Path, m: nat)
    requires SharedShaped(s) && Publishable(s, t, full, m) && (t.path != [] ==> t.path in s.trie)
    requires forall k :: |t.path| <= k < |full| ==> |full[k]| == s.pool.pageTokens
    ensures NodesShaped(PublishedTrie(s, t, full, m), s.pool.pageTokens, s.layerCount)
  {
    var trie := PublishedTrie(s, t, full, m);
    forall k | 0 <= k < |full| ensures |full[k]| == s.pool.pageTokens {
      if k < |t.path| { assert full[k] == t.path[k]; }
    }
    forall q | q in trie
      ensures |trie[q].pages| == s.layerCount && forall k :: 0 <= k < |q| ==> |q[k]| == s.pool.pageTokens
    {
      if q in NewPaths(full, m) {
        var j :| m < j <= |full| && q == full[..j];
      }
    }
  }

  lemma CommitStops(s: Shared, t: Table, full: Path, m: nat, done: Indexing)
    requires IndexedForTable(s, t, full, m, done)
    ensures var first := RetainAll(s.pool, done.newPages);
            && (first.error.Some? ==>
                  CommitPublication(s, t, full, m) ==
                    Step(Shared(s.enabled, s.layerCount, first.pool, PublishedTrie(s, t, full, m), s.clock + 1), t, Err(first.error.value)))
            && (first.error.None? ==>
                  var second := RetainAll(first.pool, PagesOf(done.replacements));
                  second.error.Some? ==>
                    CommitPublication(s, t, full, m) ==
                      Step(Shared(s.enabled, s.layerCount, second.pool, PublishedTrie(s, t, full, m), s.clock + 1), t, Err(second.error.value)))
  {
    hide RetainAll, ReleaseAll, Flatten, NewRows, CanonicalRows, ReplacedRows, PublishedTrie, PublishedTable, SharedShaped, Adopted,
      TakenOut, InTables;
  }

  lemma CommitCompletes(s: Shared, t: Table, full: Path, m: nat, done: Indexing)
    requires IndexedForTable(s, t, full, m, done)
    requires RetainAll(s.pool, done.newPages).error.None?
    requires RetainAll(RetainAll(s.pool, done.newPages).pool, PagesOf(done.replacements)).error.None?
    ensures InTables(t.layers, done.replacements)
    ensures var second := RetainAll(RetainAll(s.pool, done.newPages).pool, PagesOf(done.replacements));
            var third := ReleaseAll(second.pool, TakenOut(t.layers, done.replacements));
            CommitPublication(s, t, full, m) ==
              Step(Shared(s.enabled, s.layerCount, third.pool, PublishedTrie(s, t, full, m), s.clock + 1),
                   Table(Adopted(t.layers, done.replacements), full),
                   if third.error.Some? then Err(third.error.value) else Ok(done.blockCount * s.pool.pageTokens))
  {
    hide RetainAll, ReleaseAll, Flatten, NewRows, CanonicalRows, ReplacedRows, PublishedTrie, SharedShaped, Adopted, TakenOut, InTables;
  }

  lemma RootCursor(m: BlockMap, n: Naming)
    ensures IdOf(m, n, []) == None && KeyOption(n, []) == None
  {
  }

  lemma EvictUnfold(s: Shared, required: nat)
    ensures |s.pool.free| >= required || !s.enabled || Victim(s.trie, s.pool).None? ==> EvictUntil(s, required) == SharedStep(s, None)
    ensures |s.pool.free| < required && s.enabled && Victim(s.trie, s.pool).Some? ==>
              var v := Victim(s.trie, s.pool).value;
              var released := ReleaseAll(s.pool, s.trie[v].pages);
              var s' := s.(pool := released.pool, trie := s.trie - {v});
              && |s'.trie| < |s.trie|
              && EvictUntil(s, required) == if released.error.Some? then SharedStep(s', released.error) else EvictUntil(s', required)
  {
    hide ReleaseAll, Victim;
    if |s.pool.free| < required && s.enabled && Victim(s.trie, s.pool).Some? {
      var v := Victim(s.trie, s.pool).value;
      assert (s.trie - {v}).Keys == s.trie.Keys - {v};
      assert v in s.trie;
    }
  }

  /** An eviction step leaves the shapes and the stamps in order. */
  lemma EvictedShape(s: Shared, required: nat, s': Shared, error: Option<CacheError>)
    requires SharedShaped(s) && StampsOk(s.trie, s.clock) && s.enabled && Victim(s.trie, s.pool).Some?
    requires var v := Victim(s.trie, s.pool).value;
             var released := ReleaseAll(s.pool, s.trie[v].pages);
             s' == s.(pool := released.pool, trie := s.trie - {v}) && error == released.error
    ensures SharedShaped(s') && StampsOk(s'.trie, s'.clock)
  {
    hide Victim, ReleaseAll;
    ReleaseAllKeepsShape(s.pool, s.trie[Victim(s.trie, s.pool).value].pages);
  }

  lemma AppendUnfold(s: Shared, t: Table, l: nat, start: nat, values: seq<KvEntry>)
    requires SharedShaped(s) && TableShaped(s, t)
    ensures s.pool.pageTokens > 0
    ensures l >= |t.layers| ==> Append(s, t, l, start, values) == Step(s, t, Err(InvalidLayer))
    ensures l < |t.layers| && start != t.layers[l].count ==> Append(s, t, l, start, values) == Step(s, t, Err(WrongStartPosition))
    ensures l < |t.layers| && start == t.layers[l].count && values == [] ==>
              Append(s, t, l, start, values) == Step(s, t, Err(EmptyAppend))
    ensures l < |t.layers| && start == t.layers[l].count && values != [] ==>
              var required := RequiredPages(s.pool.pageTokens, t.layers[l].count, |values|);
              var evicted := EvictUntil(s, required);
              && LayerInRange(evicted.shared, t, l)
              && Append(s, t, l, start, values) ==
                   if evicted.error.Some? then Step(evicted.shared, t, Err(evicted.error.value))
                   else if required > |evicted.shared.pool.free| then
                     Step(evicted.shared, t, Err(InsufficientCapacity(required, |evicted.shared.pool.free|)))
                   else AppendChunks(evicted.shared, t, l, values)
  {
    hide EvictUntil, AppendChunks;
    if l < |t.layers| { EvictKeepsShape(s, RequiredPages(s.pool.pageTokens, t.layers[l].count, |values|)); }
  }

  lemma ChunksUnfold(s: Shared, t: Table, l: nat, values: seq<KvEntry>)
    requires LayerInRange(s, t, l)
    ensures values == [] ==> AppendChunks(s, t, l, values) == Step(s, t, Ok(t.layers[l].count))
    ensures values != [] ==>
              var one := AppendChunk(s, t, l, values);
              AppendChunks(s, t, l, values) ==
                if one.result.Err? then one else AppendChunks(one.shared, one.table, l, values[one.result.value..])
  {
    hide AppendChunk;
  }

  lemma ChunkShape(s: Shared, t: Table, l: nat, values: seq<KvEntry>)
    requires SharedShaped(s) && LayerInRange(s, t, l) && values != []
    ensures SharedShaped(AppendChunk(s, t, l, values).shared)
  {
  }

  lemma ShapedParts(s: Shared)
    requires SharedShaped(s)
    ensures NodesShaped(s.trie, s.pool.pageTokens, s.layerCount) && Shaped(s.pool)
  {
  }

  lemma RestoreRefused(s: Shared, t: Table, tokens: seq<Token>)
    requires SharedShaped(s) && TableShaped(s, t)
    ensures !s.enabled ==> Restore(s, t, tokens) == Step(s, t, Ok(0))
    ensures s.enabled && IsPopulated(t) ==> Restore(s, t, tokens) == Step(s, t, Err(TableAlreadyPopulated))
  {
  }

  lemma FreshShaped(enabled: bool, layers: nat, tokensPerPage: nat, pageCount: nat, filler: KvEntry)
    requires layers > 0 && tokensPerPage > 0
    ensures SharedShaped(Shared(enabled, layers, FreshPool(tokensPerPage, pageCount, filler), map[], 0))
  {
  }

  ghost function LookedUp(s: Shared, path: Path, rows: seq<seq<PageId>>): Shared {
    Shared(s.enabled, s.layerCount, RetainAll(s.pool, Flatten(rows)).pool, Touch(s.trie, path, 0, |path|, s.clock), s.clock + 1)
  }

  ghost predicate IsLookup(s: Shared, t: Table, tokens: seq<Token>, path: Path, rows: seq<seq<PageId>>) {
    && SharedShaped(s) && TableShaped(s, t) && s.enabled && !IsPopulated(t)
    && path == MatchedPath(s, tokens) && MatchIndexed(s, path)
    && Flatten(rows) == Flatten(PathRows(s, path)) && (path != [] ==> rows == PathRows(s, path))
  }

  lemma RestoreFails(s: Shared, t: Table, tokens: seq<Token>, path: Path, rows: seq<seq<PageId>>)
    requires IsLookup(s, t, tokens, path, rows) && RetainAll(s.pool, Flatten(rows)).error.Some?
    ensures Restore(s, t, tokens) == Step(LookedUp(s, path, rows), t, Err(RetainAll(s.pool, Flatten(rows)).error.value))
  {
    hide MatchedPath, RetainAll, Touch, PathRows;
  }

  lemma KnownByLinks(a: BlockMap, b: BlockMap, n: Naming)
    requires SameLinks(a, b)
    ensures forall u :: (u == [] || (u in n.keyOf && n.keyOf[u] in a.blocks)) ==>
              (u == [] || (u in n.keyOf && n.keyOf[u] in b.blocks)) && IdOf(b, n, u) == IdOf(a, n, u)
  {
  }

  lemma {:induction false} FlattenEmptyRows<T>(rows: seq<seq<T>>)
    requires forall i :: 0 <= i < |rows| ==> rows[i] == []
    ensures Flatten(rows) == []
    decreases |rows|
  {
    if rows != [] { FlattenEmptyRows(rows[1..]); }
  }

  /** The rows a lookup collects are the pages of the matched path. */
  lemma LookupRows(s: Shared, tokens: seq<Token>, path: Path, rows: seq<seq<PageId>>)
    requires SharedShaped(s) && path == Blocks(tokens, s.pool.pageTokens)[..LongestMatch(s.trie, Blocks(tokens, s.pool.pageTokens))]
    requires RowsCollected(s.trie, path, |path|, rows) && if path == [] then rows == [] else |rows| == s.layerCount
    ensures path == MatchedPath(s, tokens) && MatchIndexed(s, path)
    ensures Flatten(rows) == Flatten(PathRows(s, path))
    ensures path != [] ==> rows == PathRows(s, path)
  {
    hide MatchFrom, Blocks, Flatten;
    var q := MatchedPath(s, tokens);
    assert q <= Blocks(tokens, s.pool.pageTokens) && |q| == |path|;
    assert path == q;
    if path == [] {
      FlattenEmptyRows(rows);
      FlattenEmptyRows(PathRows(s, path));
    } else {
      forall l | 0 <= l < |rows| ensures rows[l] == PathRows(s, path)[l] {
        forall k | 0 <= k < |path| ensures rows[l][k] == PathRows(s, path)[l][k] {
          assert CollectedAt(s.trie, path, k, l, rows[l]);
        }
      }
      assert rows == PathRows(s, path);
    }
  }

  lemma RestoredShape(s: Shared, path: Path, rows: seq<seq<PageId>>)
    requires SharedShaped(s)
    ensures SharedShaped(LookedUp(s, path, rows))
  {
    RetainShapes(s.pool, Flatten(rows));
  }

  lemma RetainShapes(p: Pool, ids: seq<PageId>)
    requires Shaped(p)
    ensures Shaped(RetainAll(p, ids).pool) && RetainAll(p, ids).pool.pageTokens == p.pageTokens
    ensures |RetainAll(p, ids).pool.states| == |p.states|
  {
    RetainFromShapes(p, ids, []);
  }

  lemma {:induction false} RetainFromShapes(p: Pool, ids: seq<PageId>, saved: seq<(PageId, PageState)>)
    requires Shaped(p)
    ensures var p' := RetainFrom(p, ids, saved).pool;
            Shaped(p') && p'.pageTokens == p.pageTokens && |p'.states| == |p.states|
    decreases |ids|
  {
    if ids != [] && RetainPage(p, ids[0]).Ok? {
      RetainFromShapes(RetainPage(p, ids[0]).value, ids[1..], saved + [(ids[0], p.states[ids[0]])]);
    }
  }

  lemma AttachedIsRestored(s: Shared, t: Table, tokens: seq<Token>, path: Path, rows: seq<seq<PageId>>, t': Table)
    requires IsLookup(s, t, tokens, path, rows) && RetainAll(s.pool, Flatten(rows)).error.None? && t'.path == path
    requires path == [] ==> rows == []
    requires |t'.layers| == |t.layers| && forall l :: 0 <= l < |t'.layers| ==>
               t'.layers[l] == if l < |rows| then LayerTable(rows[l], |path| * s.pool.pageTokens) else t.layers[l]
    ensures Restore(s, t, tokens) == Step(LookedUp(s, path, rows), t', Ok(CachedCount(t')))
  {
    hide RetainAll, LookedUp, Restore, MatchedPath, PathRows, RestoredTable, CachedCount, Flatten;
    RestoreSucceeds(s, t, tokens, path, rows);
    RowsRestored(s, t, tokens, path, rows, t');
  }

  lemma RestoreSucceeds(s: Shared, t: Table, tokens: seq<Token>, path: Path, rows: seq<seq<PageId>>)
    requires IsLookup(s, t, tokens, path, rows) && RetainAll(s.pool, Flatten(rows)).error.None?
    ensures Restore(s, t, tokens) == Step(LookedUp(s, path, rows), RestoredTable(s, path), Ok(CachedCount(RestoredTable(s, path))))
  {
    hide MatchedPath, RetainAll, Touch, PathRows, RestoredTable, CachedCount;
  }

  lemma RowsRestored(s: Shared, t: Table, tokens: seq<Token>, path: Path, rows: seq<seq<PageId>>, t': Table)
    requires IsLookup(s, t, tokens, path, rows) && t'.path == path && (path == [] ==> rows == [])
    requires |t'.layers| == |t.layers| && forall l :: 0 <= l < |t'.layers| ==>
               t'.layers[l] == if l < |rows| then LayerTable(rows[l], |path| * s.pool.pageTokens) else t.layers[l]
    ensures t' == RestoredTable(s, path)
  {
    hide RetainAll, Touch, PathRows, MatchedPath, Flatten;
    forall l | 0 <= l < |t'.layers| ensures t'.layers[l] == RestoredTable(s, path).layers[l] {
      if path == [] {
        assert t.layers[l] == LayerTable([], 0);
        NoRows(s, l);
      }
    }
  }

  lemma NoRows(s: Shared, l: nat)
    requires SharedShaped(s) && MatchIndexed(s, []) && l < s.layerCount
    ensures PathRows(s, [])[l] == []
  {
  }
}
