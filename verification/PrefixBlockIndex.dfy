/** The prefix index as the object the backend mutates: a hash map of blocks with parent links, child
    counts, a leaf set and access stamps, walked and updated block by block. Its methods are tied to
    the trie operations, through the naming of paths by keys that `Valid` keeps exact. */
module PrefixIndexObject {
  import opened Common
  import opened CacheErrors
  import opened PagePool
  import opened PagePoolObject
  import opened PrefixTrie
  import opened PrefixBlockMap
  import opened PagedCacheSpec
  import Arithmetic

  datatype Cursor = Cursor(blockId: Option<BlockId>, blockKey: Option<BlockKey>, tokenCount: nat)

  /** The entry of one layer's table that is to be replaced by an already indexed page. */
  datatype Replacement = Replacement(layer: nat, block: nat, page: PageId)

  datatype Indexing = Indexing(newPages: seq<PageId>, replacements: seq<Replacement>, blockCount: nat, cursor: Cursor)

  const ROOT := Cursor(None, None, 0)

  /** A routing snapshot: only the keys and ids. */
  datatype AffinitySnapshot = AffinitySnapshot(blockTokens: nat, ids: map<BlockKey, BlockId>)

  /** The differences in the first n layers of a block. */
  function DifferencesUpTo(canonical: seq<PageId>, own: seq<PageId>, block: nat, n: nat): seq<Replacement>
    requires n <= |canonical| && n <= |own|
  {
    if n == 0 then []
    else DifferencesUpTo(canonical, own, block, n - 1) +
         (if canonical[n - 1] != own[n - 1] then [Replacement(n - 1, block, canonical[n - 1])] else [])
  }

  /** The canonical pages a list of replacements brings in. */
  function PagesOf(replacements: seq<Replacement>): (ids: seq<PageId>)
    ensures |ids| == |replacements|
  {
    seq(|replacements|, i requires 0 <= i < |replacements| => replacements[i].page)
  }

  lemma {:induction false} DifferingPrefix(a: seq<PageId>, b: seq<PageId>, n: nat)
    requires |a| == |b| && n < |a|
    ensures Differing(a[..n + 1], b[..n + 1]) == Differing(a[..n], b[..n]) + (if a[n] != b[n] then [a[n]] else [])
    decreases n
  {
    if n == 0 {
      assert a[..1][1..] == [] && a[..1][0] == a[0] && b[..1][0] == b[0];
      assert a[..0] == [] && b[..0] == [];
    } else {
      DifferingPrefix(a[1..], b[1..], n - 1);
      assert a[1..][..n] == a[..n + 1][1..] && b[1..][..n] == b[..n + 1][1..];
      assert a[1..][..n - 1] == a[..n][1..] && b[1..][..n - 1] == b[..n][1..];
    }
  }

  lemma {:induction false} DifferencesPages(canonical: seq<PageId>, own: seq<PageId>, block: nat, n: nat)
    requires |canonical| == |own| && n <= |own|
    ensures PagesOf(DifferencesUpTo(canonical, own, block, n)) == Differing(canonical[..n], own[..n])
    decreases n
  {
    if n > 0 {
      DifferencesPages(canonical, own, block, n - 1);
      DifferingPrefix(canonical, own, n - 1);
      var before := DifferencesUpTo(canonical, own, block, n - 1);
      if canonical[n - 1] != own[n - 1] {
        assert PagesOf(before + [Replacement(n - 1, block, canonical[n - 1])]) == PagesOf(before) + [canonical[n - 1]];
      } else {
        assert before + [] == before;
      }
    }
  }

  lemma {:induction false} FlattenSnoc<T>(rows: seq<seq<T>>, row: seq<T>)
    ensures Flatten(rows + [row]) == Flatten(rows) + row
  {
    if rows == [] {
      assert [] + [row] == [row] && [row][1..] == [];
    } else {
      FlattenSnoc(rows[1..], row);
      assert (rows + [row])[1..] == rows[1..] + [row];
    }
  }

  lemma TouchOne(t: Trie, path: Path, a: nat, k: nat, stamp: nat)
    requires a <= k < |path| && path[..k + 1] in t
    ensures var t1 := Touch(t, path, a, k, stamp);
            path[..k + 1] in t1 && t1[path[..k + 1]].pages == t[path[..k + 1]].pages &&
            t1[path[..k + 1] := t1[path[..k + 1]].(stamp := stamp)] == Touch(t, path, a, k + 1, stamp)
  {
    var t1, t2 := Touch(t, path, a, k, stamp), Touch(t, path, a, k + 1, stamp);
    forall u | u in t && u != path[..k + 1] ensures t1[u] == t2[u] {
      if u <= path { assert u == path[..|u|]; }
    }
  }

  lemma InsertOne(t: Trie, path: Path, m: nat, k: nat, columns: seq<seq<PageId>>, stamp: nat)
    requires m <= k < |path| && |columns| >= |path|
    ensures Insert(t, path[..k], m, columns, stamp)[path[..k + 1] := Node(columns[k], stamp)] ==
            Insert(t, path[..k + 1], m, columns, stamp)
  {
    hide NewPaths;
    PathsGrow(path, m, k);
    assert |path[..k + 1]| == k + 1;
  }

  lemma InsertNothing(t: Trie, path: Path, k: nat, m: nat, columns: seq<seq<PageId>>, stamp: nat)
    requires k <= m && k <= |path| && |columns| >= |path|
    ensures Insert(t, path[..k], m, columns, stamp) == t
  {
    assert NewPaths(path[..k], m) == {};
  }

  class PrefixBlockIndex {
    const blockTokens: nat
    var blocksMap: map<BlockKey, IndexedBlock>
    var leafKeys: set<BlockKey>
    var nextBlockId: BlockId
    var clock: nat
    ghost var naming: Naming

    ghost function Value(): BlockMap
      reads this
    {
      BlockMap(blocksMap, leafKeys, nextBlockId)
    }

    ghost function Trie(): Trie
      reads this
    {
      TrieOf(Value(), naming)
    }

    /** Parent links, fresh ids, child counts and the leaf set are exact. */
    ghost predicate Valid()
      reads this
    {
      blockTokens > 0 && Represents(Value(), naming)
    }

    ghost predicate Indexed(p: Path)
      reads this
    {
      p == [] || (p in naming.keyOf && naming.keyOf[p] in blocksMap)
    }

    /** The cursor that stands for an indexed path. */
    ghost function CursorAt(p: Path): Cursor
      reads this
      requires Indexed(p)
    {
      Cursor(IdOf(Value(), naming, p), KeyOption(naming, p), |p| * blockTokens)
    }

    constructor (tokensPerBlock: nat)
      requires tokensPerBlock > 0
      ensures Valid() && Trie() == map[] && clock == 0 && blockTokens == tokensPerBlock
    {
      blockTokens := tokensPerBlock;
      blocksMap, leafKeys, nextBlockId, clock := map[], {}, 0, 0;
      naming := Naming(map[], map[]);
    }

    /** Looks a block up below the cursor's path and stamps it when it is there. */
    method Match(cursor: Cursor, tokens: Block, stamp: nat, ghost p: Path) returns (found: Option<IndexedBlock>, next: Cursor)
      requires Valid() && Indexed(p) && cursor == CursorAt(p)
      modifies this`blocksMap
      ensures Valid() && Trie().Keys == old(Trie().Keys)
      ensures found.Some? <==> p + [tokens] in old(Trie())
      ensures found.None? ==> next == cursor && Trie() == old(Trie()) && blocksMap == old(blocksMap)
      ensures found.Some? ==>
                && Indexed(p + [tokens]) && next == CursorAt(p + [tokens])
                && found.value.pages == old(Trie())[p + [tokens]].pages
                && Trie() == old(Trie())[p + [tokens] := old(Trie())[p + [tokens]].(stamp := stamp)]
      ensures SameLinks(old(Value()), Value())
    {
      hide Represents, RepresentsWith, TrieOf, IdOf, KeyOption;
      var key := BlockKey(cursor.blockId, tokens);
      ghost var q := p + [tokens];
      MatchFacts(Value(), naming, p, tokens, stamp);
      if key !in blocksMap { return None, cursor; }
      var block := blocksMap[key];
      blocksMap := blocksMap[key := block.(stamp := stamp)];
      assert Value() == Stamped(old(Value()), key, stamp);
      found, next := Some(block), Cursor(Some(block.id), Some(key), cursor.tokenCount + blockTokens);
      assert |q| * blockTokens == |p| * blockTokens + blockTokens;
    }

    /** Walks the complete blocks of the input from the root while they are indexed, stamping each, and
        collects their pages layer by layer. */
    method FindLongestCachedPrefix(tokens: seq<Token>, ghost layerCount: nat)
        returns (rows: seq<seq<PageId>>, cursor: Cursor, ghost path: Path)
      requires Valid() && NodesShaped(Trie(), blockTokens, layerCount)
      modifies this`blocksMap, this`clock
      ensures Valid() && clock == old(clock) + 1
      ensures var blocks := Blocks(tokens, blockTokens); path == blocks[..LongestMatch(old(Trie()), blocks)]
      ensures Trie() == Touch(old(Trie()), path, 0, |path|, old(clock))
      ensures Indexed(path) && cursor == CursorAt(path)
      ensures if path == [] then rows == [] else |rows| == layerCount
      ensures RowsCollected(old(Trie()), path, |path|, rows)
      ensures SameLinks(old(Value()), Value())
    {
      hide Represents, RepresentsWith, Touch, NodesShaped, IdOf, KeyOption, RowsCollected, TrieOf, SameLinks, MatchFrom;
      var stamp := clock;
      clock := clock + 1;
      cursor, rows := ROOT, [];
      var blocks := Blocks(tokens, blockTokens);
      ghost var t0 := old(Trie());
      var k := 0;
      assert blocks[..0] == [];
      LookupStarts(Value(), naming, t0, blocks, stamp);
      while k < |blocks|
        invariant k <= |blocks| && Valid() && clock == stamp + 1
        invariant Trie() == Touch(t0, blocks, 0, k, stamp) && Trie().Keys == t0.Keys
        invariant MatchFrom(t0, blocks, k) == LongestMatch(t0, blocks)
        invariant Indexed(blocks[..k]) && cursor == CursorAt(blocks[..k])
        invariant if k == 0 then rows == [] else |rows| == layerCount
        invariant RowsCollected(t0, blocks, k, rows)
        invariant SameLinks(old(Value()), Value())
        decreases |blocks| - k
      {
        ghost var before := Value();
        ghost var p := blocks[..k];
        assert blocks[..k + 1] == p + [blocks[k]];
        var found, next := Match(cursor, blocks[k], stamp, p);
        SameLinksTwice(old(Value()), before, Value());
        MatchStep(t0, blocks, k);
        if found.None? { break; }
        TouchOne(t0, blocks, 0, k, stamp);
        ColumnCollected(t0, blocks, k, rows, found.value.pages, blockTokens, layerCount);
        rows := AddColumn(rows, found.value.pages);
        cursor := next;
        k := k + 1;
      }
      path := blocks[..k];
      MatchEnd(t0, blocks);
      TouchPrefix(t0, blocks, k, stamp);
      CollectedPrefix(t0, blocks, k, rows);
    }

    /** Gives the parent at a branch point one more child, before that child is inserted. */
    method IncrementChildCount(key: BlockKey)
      requires Valid() && key in blocksMap
      modifies this`blocksMap, this`leafKeys
      ensures RepresentsWith(Value(), naming, Some(key)) && Trie() == old(Trie()) && SameLinks(old(Value()), Value())
    {
      hide Represents, RepresentsWith, TrieOf, SameLinks;
      PromiseKeepsRepresentation(Value(), naming, key);
      leafKeys := leafKeys - {key};
      blocksMap := blocksMap[key := blocksMap[key].(childCount := blocksMap[key].childCount + 1)];
      assert Value() == Promised(old(Value()), key);
    }

    /** Stores a new block below the cursor's path. */
    method InsertBlock(cursor: Cursor, tokens: Block, pages: seq<PageId>, hasChild: bool, stamp: nat, ghost p: Path)
        returns (next: Cursor)
      requires Indexed(p) && cursor == CursorAt(p) && RepresentsWith(Value(), naming, KeyOption(naming, p))
      requires p + [tokens] !in Trie()
      modifies this`blocksMap, this`leafKeys, this`nextBlockId, this`naming
      ensures Indexed(p + [tokens]) && next == CursorAt(p + [tokens])
      ensures RepresentsWith(Value(), naming, if hasChild then KeyOption(naming, p + [tokens]) else None)
      ensures Trie() == old(Trie())[p + [tokens] := Node(pages, stamp)]
      ensures NamesKept(old(Value()), old(naming), Value(), naming)
    {
      hide RepresentsWith, TrieOf, KeyOption, IdOf;
      ghost var q := p + [tokens];
      InsertFacts(Value(), naming, p, tokens, pages, hasChild, stamp);
      var key := BlockKey(cursor.blockId, tokens);
      var id := nextBlockId;
      nextBlockId := nextBlockId + 1;
      blocksMap := blocksMap[key := IndexedBlock(id, cursor.blockKey, pages, if hasChild then 1 else 0, stamp)];
      if !hasChild { leafKeys := leafKeys + {key}; }
      naming := WithName(naming, q, key);
      assert Value() == Inserted(old(Value()), old(naming), p, tokens, pages, hasChild, stamp);
      next := Cursor(Some(id), Some(key), cursor.tokenCount + blockTokens);
      assert |q| * blockTokens == |p| * blockTokens + blockTokens;
    }

    /** The entries of the request's tables that differ from an indexed block's pages. */
    method CollectReplacements(pages: seq<PageId>, own: seq<PageId>, block: nat) returns (found: seq<Replacement>)
      requires |pages| == |own|
      ensures found == DifferencesUpTo(pages, own, block, |own|)
    {
      found := [];
      for l := 0 to |own|
        invariant found == DifferencesUpTo(pages, own, block, l)
      {
        if pages[l] != own[l] { found := found + [Replacement(l, block, pages[l])]; }
      }
    }

    /** One block of an indexing walk: found and stamped, or inserted as part of the new branch. */
    method IndexBlock(cursor: Cursor, tokens: Block, own: seq<PageId>, hasChild: bool, appending: bool, stamp: nat, ghost p: Path)
        returns (found: Option<IndexedBlock>, next: Cursor)
      requires blockTokens > 0 && Indexed(p) && cursor == CursorAt(p)
      requires RepresentsWith(Value(), naming, if appending then KeyOption(naming, p) else None)
      requires appending ==> p + [tokens] !in Trie()
      modifies this`blocksMap, this`leafKeys, this`nextBlockId, this`naming
      ensures found.Some? <==> !appending && p + [tokens] in old(Trie())
      ensures Indexed(p + [tokens]) && next == CursorAt(p + [tokens])
      ensures found.Some? ==>
                && found.value.pages == old(Trie())[p + [tokens]].pages
                && Trie() == old(Trie())[p + [tokens] := old(Trie())[p + [tokens]].(stamp := stamp)]
                && RepresentsWith(Value(), naming, None)
      ensures found.None? ==>
                && Trie() == old(Trie())[p + [tokens] := Node(own, stamp)]
                && RepresentsWith(Value(), naming, if hasChild then KeyOption(naming, p + [tokens]) else None)
      ensures NamesKept(old(Value()), old(naming), Value(), naming)
    {
      hide RepresentsWith, TrieOf, IdOf, KeyOption, SameLinks, NamesKept;
      NamesKeptSelf(Value(), naming);
      found, next := None, cursor;
      if !appending {
        ghost var before := Value();
        RepresentsNone(Value(), naming);
        found, next := Match(cursor, tokens, stamp, p);
        RepresentsNone(Value(), naming);
        NamesKeptByLinks(old(Value()), old(naming), before, Value(), naming);
        if found.Some? { return; }
        KeyOfCursor(Value(), naming, p);
        if next.blockKey.Some? {
          ghost var unlinked := Value();
          IncrementChildCount(next.blockKey.value);
          NamesKeptByLinks(old(Value()), old(naming), unlinked, Value(), naming);
          CursorByLinks(unlinked, Value(), naming, p);
        }
      }
      ghost var m1, n1 := Value(), naming;
      next := InsertBlock(next, tokens, own, hasChild, stamp, p);
      NamesKeptTwice(old(Value()), old(naming), m1, n1, Value(), naming);
    }

    /** Walks the blocks from the cursor on: blocks already indexed are stamped and compared with the
        request's pages, and from the first missing block on a new branch is inserted. */
    method WalkBlocks(cursor: Cursor, blocks: Path, layers: seq<LayerTable>, stamp: nat, ghost p: Path) returns (done: Indexing)
      requires Valid() && Indexed(p) && cursor == CursorAt(p) && NodesShaped(Trie(), blockTokens, |layers|)
      requires |p| <= |blocks| && forall l :: 0 <= l < |layers| ==> |blocks| <= |layers[l].pages|
      modifies this`blocksMap, this`leafKeys, this`nextBlockId, this`naming
      ensures Valid() && NamesKept(old(Value()), old(naming), Value(), naming)
      ensures IndexedAs(old(Trie()), Trie(), p, blocks, layers, Ok(done), stamp)
      ensures Indexed(p + blocks[|p|..]) && done.cursor == CursorAt(p + blocks[|p|..])
    {
      hide RepresentsWith, TrieOf, IdOf, KeyOption, NodesShaped, MatchFrom, NamesKept, Walked, SameLinks, DifferencesUpTo, IndexedAs;
      ghost var t0 := old(Trie());
      ghost var full := p + blocks[|p|..];
      ghost var m := MatchFrom(t0, full, |p|);
      ghost var columns := Columns(Table(layers, p), |full|);
      NamesKeptSelf(Value(), naming);
      StartingBlock(|p|, blockTokens);
      assert full[..|p|] == p && full[..|blocks|] == full;
      IndexingStarts(Value(), naming, full, |p|, m, columns, stamp);
      var at, appending, newPages, replacements, count := cursor, false, [], [], 0;
      var i := cursor.tokenCount / blockTokens;
      while i < |blocks|
        invariant |p| <= i <= |blocks| && (appending <==> i > m)
        invariant Indexed(full[..i]) && at == CursorAt(full[..i])
        invariant RepresentsWith(Value(), naming, if i > m && i < |full| then KeyOption(naming, full[..i]) else None)
        invariant NamesKept(old(Value()), old(naming), Value(), naming)
        invariant Walked(t0, Trie(), full, |p|, m, i, columns, stamp, newPages, replacements, count)
        decreases |blocks| - i
      {
        ghost var q, now := full[..i], Trie();
        assert full[..i + 1] == q + [blocks[i]];
        WalkFinds(t0, now, full, |p|, m, i, columns, stamp, newPages, replacements, count);
        var own := seq(|layers|, l requires 0 <= l < |layers| => layers[l].pages[i]);
        assert own == columns[i];
        ghost var m1, n1 := Value(), naming;
        var found: Option<IndexedBlock>;
        found, at := IndexBlock(at, blocks[i], own, i + 1 < |blocks|, appending, stamp, q);
        NamesKeptTwice(old(Value()), old(naming), m1, n1, Value(), naming);
        if found.Some? {
          PagesPerLayer(t0, full[..i + 1], blockTokens, |layers|);
          WalkMatched(t0, now, Trie(), full, |p|, m, i, columns, stamp, newPages, replacements, count);
          var more := CollectReplacements(found.value.pages, own, i);
          replacements := replacements + more;
        } else {
          WalkInserted(t0, now, Trie(), full, |p|, m, i, columns, stamp, newPages, replacements, count);
          appending := true;
          newPages := newPages + own;
          count := count + 1;
        }
        i := i + 1;
      }
      done := Indexing(newPages, replacements, count, at);
      WalkEnds(t0, Trie(), p, blocks, layers, m, stamp, done);
      RepresentsNone(Value(), naming);
    }

    /** Indexes the complete blocks of a sequence from the cursor on. */
    method IndexCachedSequence(cursor: Cursor, tokens: seq<Token>, layers: seq<LayerTable>, ghost p: Path)
        returns (r: Result<Indexing>)
      requires Valid() && Indexed(p) && cursor == CursorAt(p) && NodesShaped(Trie(), blockTokens, |layers|)
      modifies this`blocksMap, this`leafKeys, this`nextBlockId, this`naming, this`clock
      ensures Valid() && NamesKept(old(Value()), old(naming), Value(), naming)
      ensures clock == old(clock) + (if r == Err(TooFewCachedPages) then 0 else 1)
      ensures IndexedAs(old(Trie()), Trie(), p, Blocks(tokens, blockTokens), layers, r, old(clock))
      ensures r.Ok? ==> |p| <= |Blocks(tokens, blockTokens)|
      ensures r.Ok? ==> var full := p + Blocks(tokens, blockTokens)[|p|..]; Indexed(full) && r.value.cursor == CursorAt(full)
    {
      hide RepresentsWith, TrieOf, IdOf, KeyOption, NodesShaped, NamesKept, Blocks, IndexedAs;
      var blocks := Blocks(tokens, blockTokens);
      NamesKeptSelf(Value(), naming);
      IndexingRefused(Trie(), p, blocks, layers, clock);
      if exists l :: 0 <= l < |layers| && |layers[l].pages| < |blocks| { return Err(TooFewCachedPages); }
      var stamp := clock;
      clock := clock + 1;
      StartingBlock(|p|, blockTokens);
      if cursor.tokenCount / blockTokens > |blocks| { return Err(CursorBeyondSequence); }
      var done := WalkBlocks(cursor, blocks, layers, stamp, p);
      r := Ok(done);
    }

    /** The leaf with the oldest stamp among those whose pages only the index owns. */
    method FindLeastRecentlyUsedLeaf(pool: PhysicalPagePool) returns (best: Option<BlockKey>)
      requires Valid() && pool.Valid()
      ensures best.Some? ==> EligibleLeaf(Value(), pool.Value(), best.value)
      ensures best.Some? ==> forall k :: EligibleLeaf(Value(), pool.Value(), k) ==>
                blocksMap[best.value].stamp <= blocksMap[k].stamp
      ensures best.None? ==> forall k :: !EligibleLeaf(Value(), pool.Value(), k)
    {
      best := None;
      var rest := leafKeys;
      hide Represents, ArePagesInactive;
      assert leafKeys <= blocksMap.Keys by { LeavesStored(Value(), naming); }
      while rest != {}
        invariant rest <= leafKeys <= blocksMap.Keys
        invariant best.Some? ==> EligibleLeaf(Value(), pool.Value(), best.value)
        invariant best.Some? ==> forall k :: k !in rest && EligibleLeaf(Value(), pool.Value(), k) ==>
                    blocksMap[best.value].stamp <= blocksMap[k].stamp
        invariant best.None? ==> forall k :: k !in rest ==> !EligibleLeaf(Value(), pool.Value(), k)
        decreases |rest|
      {
        var key :| key in rest;
        rest := rest - {key};
        if pool.AreInactive(blocksMap[key].pages) {
          if best.None? || blocksMap[key].stamp < blocksMap[best.value].stamp { best := Some(key); }
        }
      }
    }

    /** Removes the least recently used leaf whose pages are inactive, and hands back its pages. */
    method EvictLeastRecentlyUsedLeaf(pool: PhysicalPagePool) returns (evicted: Option<seq<PageId>>)
      requires Valid() && pool.Valid() && StampsOk(Trie(), clock)
      modifies this`blocksMap, this`leafKeys, this`naming
      ensures Valid()
      ensures match Victim(old(Trie()), pool.Value())
              case None => evicted == None && Trie() == old(Trie())
              case Some(v) => v in old(Trie()) && evicted == Some(old(Trie())[v].pages) && Trie() == old(Trie()) - {v}
      ensures forall u :: Indexed(u) ==> old(Indexed(u)) && CursorAt(u) == old(CursorAt(u))
    {
      hide Represents, ArePagesInactive, TrieOf, IdOf, KeyOption, StampsOk, IsVictim, EligibleLeaf;
      var best := FindLeastRecentlyUsedLeaf(pool);
      NamesUnchanged(Value(), naming);
      if best.None? {
        NoVictim(Value(), naming, pool.Value());
        return None;
      }
      var key := best.value;
      ghost var q := LeafIsVictim(Value(), naming, pool.Value(), clock, key);
      var block := blocksMap[key];
      RemoveKeepsRepresentation(Value(), naming, q);
      NamesAfterRemoval(Value(), naming, q);
      leafKeys := leafKeys - {key};
      blocksMap := blocksMap - {key};
      if block.parentKey.Some? {
        var above := block.parentKey.value;
        var fewer := blocksMap[above].childCount - 1;
        blocksMap := blocksMap[above := blocksMap[above].(childCount := fewer)];
        if fewer == 0 { leafKeys := leafKeys + {above}; }
      }
      naming := WithoutName(naming, q, key);
      assert Value() == BlockRemoved(old(Value()), key);
      evicted := Some(block.pages);
    }
  }

  // ---- Progress of one indexing walk ----------------------------------------------------------

  /** What indexing does to the trie and what it reports. */
  ghost predicate IndexedAs(t: Trie, t': Trie, p: Path, blocks: Path, layers: seq<LayerTable>, r: Result<Indexing>, stamp: nat) {
    if exists l :: 0 <= l < |layers| && |layers[l].pages| < |blocks| then r == Err(TooFewCachedPages) && t' == t
    else if |p| > |blocks| then r == Err(CursorBeyondSequence) && t' == t
    else
      var full := p + blocks[|p|..];
      var m, columns := MatchFrom(t, full, |p|), Columns(Table(layers, p), |full|);
      && r.Ok? && t' == Progress(t, full, |p|, m, |full|, columns, stamp)
      && r.value.newPages == Flatten(columns[m..]) && r.value.blockCount == |full| - m
      && r.value.replacements == AllDifferences(t, full, columns, |p|, m)
  }

  lemma PagesPerLayer(t: Trie, q: Path, size: nat, layerCount: nat)
    requires NodesShaped(t, size, layerCount) && q in t
    ensures |t[q].pages| == layerCount
  {
  }

  /** The trie after the walk has passed block i: matched blocks stamped, the branch inserted so far. */
  ghost function Progress(t: Trie, full: Path, n: nat, m: nat, i: nat, columns: seq<seq<PageId>>, stamp: nat): Trie
    requires i <= |full| <= |columns|
  {
    Insert(Touch(t, full, n, if i <= m then i else m, stamp), full[..i], m, columns, stamp)
  }

  ghost function AllDifferences(t: Trie, full: Path, columns: seq<seq<PageId>>, n: nat, k: nat): seq<Replacement>
    requires k <= |full| <= |columns|
    decreases k
  {
    if k <= n then []
    else AllDifferences(t, full, columns, n, k - 1) +
         (if full[..k] in t && |t[full[..k]].pages| == |columns[k - 1]|
          then DifferencesUpTo(t[full[..k]].pages, columns[k - 1], k - 1, |columns[k - 1]|) else [])
  }

  lemma StartingBlock(n: nat, size: nat)
    requires size > 0
    ensures n * size / size == n
  {
    Arithmetic.DivUnique(n * size, size, n, 0);
  }

  lemma NamesKeptSelf(m: BlockMap, n: Naming)
    ensures NamesKept(m, n, m, n)
  {
  }

  lemma NamesKeptTwice(a: BlockMap, na: Naming, b: BlockMap, nb: Naming, c: BlockMap, nc: Naming)
    requires NamesKept(a, na, b, nb) && NamesKept(b, nb, c, nc)
    ensures NamesKept(a, na, c, nc)
  {
  }

  lemma NamesKeptByLinks(a: BlockMap, na: Naming, b: BlockMap, c: BlockMap, n: Naming)
    requires NamesKept(a, na, b, n) && SameLinks(b, c)
    ensures NamesKept(a, na, c, n)
  {
  }

  lemma CursorByLinks(a: BlockMap, b: BlockMap, n: Naming, p: Path)
    requires SameLinks(a, b) && (p == [] || (p in n.keyOf && n.keyOf[p] in a.blocks))
    ensures p == [] || (p in n.keyOf && n.keyOf[p] in b.blocks)
    ensures IdOf(b, n, p) == IdOf(a, n, p)
  {
  }

  lemma KeyOfCursor(m: BlockMap, n: Naming, p: Path)
    requires p == [] || (p in n.keyOf && n.keyOf[p] in m.blocks)
    ensures KeyOption(n, p).Some? ==> p != [] && KeyOption(n, p).value == n.keyOf[p]
    ensures KeyOption(n, p) == None ==> p == []
  {
  }

  lemma RepresentsNone(m: BlockMap, n: Naming)
    ensures Represents(m, n) <==> RepresentsWith(m, n, None)
  {
  }

  lemma IndexingStarts(m: BlockMap, n: Naming, full: Path, start: nat, matched: nat, columns: seq<seq<PageId>>, stamp: nat)
    requires Represents(m, n) && start <= |full| <= |columns| && matched == MatchFrom(TrieOf(m, n), full, start)
    requires full[..start] == [] || (full[..start] in n.keyOf && n.keyOf[full[..start]] in m.blocks)
    ensures Walked(TrieOf(m, n), TrieOf(m, n), full, start, matched, start, columns, stamp, [], [], 0)
    ensures RepresentsWith(m, n, None)
    ensures PrefixClosed(TrieOf(m, n)) && (start > 0 ==> full[..start] in TrieOf(m, n))
  {
    hide RepresentsWith, TrieOf;
    InsertNothing(Touch(TrieOf(m, n), full, start, start, stamp), full, start, matched, columns, stamp);
    RepresentedIsPrefixClosed(m, n, None);
    NamesUnchanged(m, n);
    if start > 0 { NamedInTrie(m, n, full[..start]); }
  }

  lemma NamedInTrie(m: BlockMap, n: Naming, p: Path)
    requires p in n.keyOf && n.keyOf[p] in m.blocks
    ensures p in TrieOf(m, n)
  {
  }

  /** The state of an indexing walk that has passed block i of the path. */
  ghost predicate Walked(t: Trie, now: Trie, full: Path, n: nat, m: nat, i: nat, columns: seq<seq<PageId>>, stamp: nat,
                         newPages: seq<PageId>, replacements: seq<Replacement>, count: nat) {
    && n <= i <= |full| <= |columns| && n <= m <= |full|
    && PrefixClosed(t) && m == MatchFrom(t, full, n) && (n > 0 ==> full[..n] in t)
    && now == Progress(t, full, n, m, i, columns, stamp)
    && newPages == Flatten(columns[m..Max(i, m)]) && count == Max(i, m) - m
    && replacements == AllDifferences(t, full, columns, n, Min(i, m))
  }

  /** The walk meets an indexed block exactly while it is inside the matched part. */
  lemma WalkFinds(t: Trie, now: Trie, full: Path, n: nat, m: nat, i: nat, columns: seq<seq<PageId>>, stamp: nat,
                  newPages: seq<PageId>, replacements: seq<Replacement>, count: nat)
    requires Walked(t, now, full, n, m, i, columns, stamp, newPages, replacements, count) && i < |full|
    ensures var q := full[..i + 1];
            && (q in now <==> i < m) && (i < m ==> q in t && now[q].pages == t[q].pages) && (i >= m ==> q !in t)
  {
    MatchFromIsLongest(t, full, n);
    hide PrefixClosed, MatchFrom, AllDifferences, Flatten, Progress;
    if i < m { MatchedStep(t, full, n, m, i, columns, stamp); } else { InsertedStep(t, full, n, m, i, columns, stamp); }
  }

  lemma WalkMatched(t: Trie, now: Trie, now': Trie, full: Path, n: nat, m: nat, i: nat, columns: seq<seq<PageId>>, stamp: nat,
                    newPages: seq<PageId>, replacements: seq<Replacement>, count: nat)
    requires Walked(t, now, full, n, m, i, columns, stamp, newPages, replacements, count) && i < m
    requires full[..i + 1] in t && full[..i + 1] in now && |t[full[..i + 1]].pages| == |columns[i]|
    requires now' == now[full[..i + 1] := now[full[..i + 1]].(stamp := stamp)]
    ensures Walked(t, now', full, n, m, i + 1, columns, stamp, newPages,
                   replacements + DifferencesUpTo(t[full[..i + 1]].pages, columns[i], i, |columns[i]|), count)
  {
    hide PrefixClosed, MatchFrom, Flatten, Progress, DifferencesUpTo;
    MatchedStep(t, full, n, m, i, columns, stamp);
  }

  lemma WalkInserted(t: Trie, now: Trie, now': Trie, full: Path, n: nat, m: nat, i: nat, columns: seq<seq<PageId>>, stamp: nat,
                     newPages: seq<PageId>, replacements: seq<Replacement>, count: nat)
    requires Walked(t, now, full, n, m, i, columns, stamp, newPages, replacements, count) && m <= i < |full|
    requires full[..i + 1] !in t && now' == now[full[..i + 1] := Node(columns[i], stamp)]
    ensures Walked(t, now', full, n, m, i + 1, columns, stamp, newPages + columns[i], replacements, count + 1)
  {
    hide PrefixClosed, MatchFrom, Flatten, Progress, AllDifferences;
    InsertedStep(t, full, n, m, i, columns, stamp);
    FlattenSnoc(columns[m..i], columns[i]);
    assert columns[m..i + 1] == columns[m..i] + [columns[i]];
  }

  lemma WalkEnds(t: Trie, now: Trie, p: Path, blocks: Path, layers: seq<LayerTable>, m: nat, stamp: nat, done: Indexing)
    requires |p| <= |blocks| && forall l :: 0 <= l < |layers| ==> |blocks| <= |layers[l].pages|
    requires Walked(t, now, p + blocks[|p|..], |p|, m, |blocks|, Columns(Table(layers, p), |blocks|), stamp,
                    done.newPages, done.replacements, done.blockCount)
    ensures IndexedAs(t, now, p, blocks, layers, Ok(done), stamp)
  {
    hide AllDifferences, Flatten, Progress, MatchFrom;
    var columns := Columns(Table(layers, p), |blocks|);
    assert columns[m..|blocks|] == columns[m..];
  }

  lemma IndexingRefused(t: Trie, p: Path, blocks: Path, layers: seq<LayerTable>, stamp: nat)
    ensures (exists l :: 0 <= l < |layers| && |layers[l].pages| < |blocks|) ==>
              IndexedAs(t, t, p, blocks, layers, Err(TooFewCachedPages), stamp)
    ensures !(exists l :: 0 <= l < |layers| && |layers[l].pages| < |blocks|) && |p| > |blocks| ==>
              IndexedAs(t, t, p, blocks, layers, Err(CursorBeyondSequence), stamp)
  {
  }

  lemma MatchedStep(t: Trie, full: Path, n: nat, m: nat, i: nat, columns: seq<seq<PageId>>, stamp: nat)
    requires n <= i < m <= |full| <= |columns| && full[..i + 1] in t
    ensures var q, now, after := full[..i + 1], Progress(t, full, n, m, i, columns, stamp), Progress(t, full, n, m, i + 1, columns, stamp);
            q in now && now[q].pages == t[q].pages && now[q := now[q].(stamp := stamp)] == after
  {
    hide Touch, Insert;
    InsertNothing(Touch(t, full, n, i, stamp), full, i, m, columns, stamp);
    InsertNothing(Touch(t, full, n, i + 1, stamp), full, i + 1, m, columns, stamp);
    TouchOne(t, full, n, i, stamp);
  }

  lemma InsertedStep(t: Trie, full: Path, n: nat, m: nat, i: nat, columns: seq<seq<PageId>>, stamp: nat)
    requires n <= m <= i < |full| <= |columns| && full[..i + 1] !in t
    ensures var q, now, after := full[..i + 1], Progress(t, full, n, m, i, columns, stamp), Progress(t, full, n, m, i + 1, columns, stamp);
            q !in now && now[q := Node(columns[i], stamp)] == after
  {
    InsertOne(Touch(t, full, n, m, stamp), full, m, i, columns, stamp);
    NewPathsShort(full, m, i);
  }

  lemma NewPathsShort(full: Path, m: nat, i: nat)
    requires i < |full|
    ensures full[..i + 1] !in NewPaths(full[..i], m)
  {
    forall q | q in NewPaths(full[..i], m) ensures |q| <= i {
    }
    assert |full[..i + 1]| == i + 1;
  }

  /** Paths that had a name still have it, with the same id and key. */
  ghost predicate NamesKept(m: BlockMap, n: Naming, m': BlockMap, n': Naming) {
    forall u :: u in n.keyOf && n.keyOf[u] in m.blocks ==>
      u in n'.keyOf && n'.keyOf[u] == n.keyOf[u] && n'.keyOf[u] in m'.blocks && m'.blocks[n.keyOf[u]].id == m.blocks[n.keyOf[u]].id
  }

  lemma InsertFacts(m: BlockMap, n: Naming, p: Path, tokens: Block, pages: seq<PageId>, hasChild: bool, stamp: nat)
    requires (p == [] || (p in n.keyOf && n.keyOf[p] in m.blocks)) && RepresentsWith(m, n, KeyOption(n, p))
    requires p + [tokens] !in TrieOf(m, n)
    ensures var key, q := BlockKey(IdOf(m, n, p), tokens), p + [tokens];
            var m' := Inserted(m, n, p, tokens, pages, hasChild, stamp);
            var n' := WithName(n, q, key);
            && RepresentsWith(m', n', if hasChild then Some(key) else None)
            && TrieOf(m', n') == TrieOf(m, n)[q := Node(pages, stamp)]
            && q in n'.keyOf && n'.keyOf[q] == key && key in m'.blocks && NamesKept(m, n, m', n')
            && IdOf(m', n', q) == Some(m.nextId) && KeyOption(n', q) == Some(key)
  {
    hide RepresentsWith, TrieOf;
    if p + [tokens] in n.keyOf { LinkedInMap(m, n, KeyOption(n, p), p + [tokens]); }
    InsertKeepsRepresentation(m, n, p, tokens, pages, hasChild, stamp);
  }

  ghost predicate EligibleLeaf(m: BlockMap, p: Pool, k: BlockKey) {
    k in m.leaves && k in m.blocks && ArePagesInactive(p, m.blocks[k].pages)
  }

  lemma LeavesStored(m: BlockMap, n: Naming)
    requires Represents(m, n)
    ensures m.leaves <= m.blocks.Keys
  {
    hide Linked, CountExact, IdsFresh;
  }

  lemma EligibleIsEvictable(m: BlockMap, n: Naming, p: Pool, q: Path)
    requires Represents(m, n) && q in n.keyOf
    ensures q in TrieOf(m, n) && (IsEvictable(TrieOf(m, n), p, q) <==> EligibleLeaf(m, p, n.keyOf[q]))
    ensures TrieOf(m, n)[q] == Node(m.blocks[n.keyOf[q]].pages, m.blocks[n.keyOf[q]].stamp)
  {
    hide RepresentsWith, CountExact, IdsFresh, IsLeaf, ArePagesInactive;
    LeavesAreLeaves(m, n, q);
  }

  lemma NoVictim(m: BlockMap, n: Naming, p: Pool)
    requires Represents(m, n) && forall k :: !EligibleLeaf(m, p, k)
    ensures Victim(TrieOf(m, n), p) == None
  {
    hide Represents, EligibleLeaf;
    forall u ensures !IsEvictable(TrieOf(m, n), p, u) {
      if u in n.keyOf { EligibleIsEvictable(m, n, p, u); }
    }
  }

  /** The leaf found in the map is the victim of the trie, whatever order the leaves were visited in. */
  lemma LeafIsVictim(m: BlockMap, n: Naming, p: Pool, clock: nat, key: BlockKey) returns (q: Path)
    requires Represents(m, n) && StampsOk(TrieOf(m, n), clock) && EligibleLeaf(m, p, key)
    requires forall k :: EligibleLeaf(m, p, k) ==> m.blocks[key].stamp <= m.blocks[k].stamp
    ensures Victim(TrieOf(m, n), p) == Some(q) && q in n.keyOf && n.keyOf[q] == key
    ensures key in m.blocks && key in m.leaves && q in TrieOf(m, n) && TrieOf(m, n)[q].pages == m.blocks[key].pages
  {
    hide ArePagesInactive, CountExact, IdsFresh, Linked, StampsOk;
    assert Named(n, key);
    q := n.pathOf[key];
    EligibleIsEvictable(m, n, p, q);
    hide EligibleLeaf, RepresentsWith, Represents;
    forall u | IsEvictable(TrieOf(m, n), p, u)
      ensures TrieOf(m, n)[q].stamp <= TrieOf(m, n)[u].stamp
    {
      EligibleIsEvictable(m, n, p, u);
    }
    assert IsVictim(TrieOf(m, n), p, q);
    VictimUnique(TrieOf(m, n), p, clock, q, Victim(TrieOf(m, n), p).value);
  }

  lemma NamesUnchanged(m: BlockMap, n: Naming)
    requires Represents(m, n)
    ensures forall u :: u in TrieOf(m, n) ==> u in n.keyOf && n.keyOf[u] in m.blocks
  {
  }

  lemma NamesAfterRemoval(m: BlockMap, n: Naming, q: Path)
    requires Removable(m, n, q)
    ensures var key := n.keyOf[q];
            var m', n' := BlockRemoved(m, key), WithoutName(n, q, key);
            && IdOf(m', n', []) == IdOf(m, n, []) && KeyOption(n', []) == KeyOption(n, [])
            && forall u :: u in n'.keyOf && n'.keyOf[u] in m'.blocks ==>
              && u in n.keyOf && n.keyOf[u] in m.blocks
              && IdOf(m', n', u) == IdOf(m, n, u) && KeyOption(n', u) == KeyOption(n, u)
  {
    hide CountExact, IdsFresh, RepresentsWith;
  }

  /** Appends each page of a block to its layer's row; the first block creates the rows. */
  function AddColumn(rows: seq<seq<PageId>>, pages: seq<PageId>): (r: seq<seq<PageId>>)
    ensures rows == [] ==> |r| == |pages| && forall l :: 0 <= l < |r| ==> r[l] == [pages[l]]
    ensures rows != [] && |rows| == |pages| ==> |r| == |rows| && forall l :: 0 <= l < |r| ==> r[l] == rows[l] + [pages[l]]
  {
    if rows == [] then seq(|pages|, l requires 0 <= l < |pages| => [pages[l]])
    else seq(|rows|, l requires 0 <= l < |rows| => if l < |pages| then rows[l] + [pages[l]] else rows[l])
  }

  ghost predicate CollectedAt(t: Trie, blocks: Path, j: nat, l: nat, row: seq<PageId>) {
    && j < |blocks| && blocks[..j + 1] in t && l < |t[blocks[..j + 1]].pages|
    && j < |row| && row[j] == t[blocks[..j + 1]].pages[l]
  }

  /** Each row lists the pages of one layer along the first k blocks. */
  ghost predicate RowsCollected(t: Trie, blocks: Path, k: nat, rows: seq<seq<PageId>>) {
    forall l :: 0 <= l < |rows| ==> |rows[l]| == k && forall j :: 0 <= j < k ==> CollectedAt(t, blocks, j, l, rows[l])
  }

  lemma ColumnCollected(t: Trie, blocks: Path, k: nat, rows: seq<seq<PageId>>, pages: seq<PageId>, size: nat, layerCount: nat)
    requires NodesShaped(t, size, layerCount) && k < |blocks| && blocks[..k + 1] in t && pages == t[blocks[..k + 1]].pages
    requires RowsCollected(t, blocks, k, rows) && if k == 0 then rows == [] else |rows| == layerCount
    ensures RowsCollected(t, blocks, k + 1, AddColumn(rows, pages)) && |AddColumn(rows, pages)| == layerCount
  {
    var after := AddColumn(rows, pages);
    forall l | 0 <= l < |after|
      ensures |after[l]| == k + 1 && forall j :: 0 <= j < k + 1 ==> CollectedAt(t, blocks, j, l, after[l])
    {
      forall j | 0 <= j < k + 1 ensures CollectedAt(t, blocks, j, l, after[l]) {
        if j < k { assert CollectedAt(t, blocks, j, l, rows[l]); }
      }
    }
  }

  lemma CollectedPrefix(t: Trie, blocks: Path, k: nat, rows: seq<seq<PageId>>)
    requires k <= |blocks| && RowsCollected(t, blocks, k, rows)
    ensures RowsCollected(t, blocks[..k], k, rows)
  {
    forall l, j | 0 <= l < |rows| && 0 <= j < k
      ensures CollectedAt(t, blocks[..k], j, l, rows[l])
    {
      assert CollectedAt(t, blocks, j, l, rows[l]);
      assert blocks[..k][..j + 1] == blocks[..j + 1];
    }
  }

  lemma SameLinksTwice(a: BlockMap, b: BlockMap, c: BlockMap)
    requires SameLinks(a, b) && SameLinks(b, c)
    ensures SameLinks(a, c)
  {
  }

  lemma LookupStarts(m: BlockMap, n: Naming, t: Trie, blocks: Path, stamp: nat)
    ensures Touch(t, blocks, 0, 0, stamp) == t && SameLinks(m, m) && RowsCollected(t, blocks, 0, [])
    ensures IdOf(m, n, []) == None && KeyOption(n, []) == None
    ensures MatchFrom(t, blocks, 0) == LongestMatch(t, blocks)
  {
  }

  lemma MatchEnd(t: Trie, path: Path)
    ensures MatchFrom(t, path, |path|) == |path|
  {
  }

  lemma MatchStep(t: Trie, path: Path, k: nat)
    requires k < |path|
    ensures MatchFrom(t, path, k) == if path[..k + 1] in t then MatchFrom(t, path, k + 1) else k
  {
  }

  lemma TouchPrefix(t: Trie, path: Path, k: nat, stamp: nat)
    requires k <= |path|
    ensures Touch(t, path, 0, k, stamp) == Touch(t, path[..k], 0, k, stamp)
  {
  }

  lemma MatchFacts(m: BlockMap, n: Naming, p: Path, tokens: Block, stamp: nat)
    requires Represents(m, n) && (p == [] || (p in n.keyOf && n.keyOf[p] in m.blocks))
    ensures var key, q := BlockKey(IdOf(m, n, p), tokens), p + [tokens];
            && (key in m.blocks <==> q in TrieOf(m, n))
            && (key in m.blocks ==>
                  && q in n.keyOf && n.keyOf[q] == key && TrieOf(m, n)[q].pages == m.blocks[key].pages
                  && SameLinks(m, Stamped(m, key, stamp)) && Represents(Stamped(m, key, stamp), n)
                  && IdOf(Stamped(m, key, stamp), n, q) == Some(m.blocks[key].id) && KeyOption(n, q) == Some(key)
                  && TrieOf(Stamped(m, key, stamp), n) == TrieOf(m, n)[q := TrieOf(m, n)[q].(stamp := stamp)])
            && SameLinks(m, m)
  {
    hide RepresentsWith, CountExact, IdsFresh, Linked;
    var key, q := BlockKey(IdOf(m, n, p), tokens), p + [tokens];
    LookupFindsPath(m, n, None, p, tokens);
    if q in n.keyOf { LinkedInMap(m, n, None, q); }
    if key in m.blocks { StampKeepsRepresentation(m, n, None, key, stamp); }
  }

  lemma LinkedInMap(m: BlockMap, n: Naming, promised: Option<BlockKey>, q: Path)
    requires RepresentsWith(m, n, promised) && q in n.keyOf
    ensures Linked(m, n, q) && q in TrieOf(m, n)
  {
    hide CountExact, IdsFresh;
    assert Linked(m, n, q);
  }

  // ---- Affinity snapshots ---------------------------------------------------------------------

  function SnapshotOf(blockTokens: nat, m: BlockMap): AffinitySnapshot {
    AffinitySnapshot(blockTokens, map k | k in m.blocks :: m.blocks[k].id)
  }

  /** The routing snapshot reports what a lookup at snapshot time would have matched. */
  method FindLongestPrefixTokenCount(snapshot: AffinitySnapshot, tokens: seq<Token>, ghost m: BlockMap, ghost n: Naming)
      returns (count: nat)
    requires snapshot.blockTokens > 0 && Represents(m, n) && snapshot == SnapshotOf(snapshot.blockTokens, m)
    ensures count == LongestMatch(TrieOf(m, n), Blocks(tokens, snapshot.blockTokens)) * snapshot.blockTokens
    ensures forall j :: 0 < j <= |Blocks(tokens, snapshot.blockTokens)| ==>
              (Blocks(tokens, snapshot.blockTokens)[..j] in TrieOf(m, n) <==> j * snapshot.blockTokens <= count)
  {
    hide Represents, TrieOf, IdOf, KeyOption, MatchFrom;
    var blocks := Blocks(tokens, snapshot.blockTokens);
    ghost var t := TrieOf(m, n);
    var parent: Option<BlockId> := None;
    var matched := 0;
    LookupStarts(m, n, t, blocks, 0);
    assert blocks[..0] == [];
    while matched < |blocks|
      invariant matched <= |blocks|
      invariant blocks[..matched] == [] || (blocks[..matched] in n.keyOf && n.keyOf[blocks[..matched]] in m.blocks)
      invariant parent == IdOf(m, n, blocks[..matched])
      invariant MatchFrom(t, blocks, matched) == LongestMatch(t, blocks)
      decreases |blocks| - matched
    {
      assert blocks[..matched + 1] == blocks[..matched] + [blocks[matched]];
      MatchFacts(m, n, blocks[..matched], blocks[matched], 0);
      MatchStep(t, blocks, matched);
      var key := BlockKey(parent, blocks[matched]);
      if key !in snapshot.ids { break; }
      SnapshotId(m, n, blocks[..matched + 1]);
      parent := Some(snapshot.ids[key]);
      matched := matched + 1;
    }
    MatchEnd(t, blocks);
    count := matched * snapshot.blockTokens;
    RepresentsNone(m, n);
    RepresentedIsPrefixClosed(m, n, None);
    LookupIsLongest(t, blocks);
    forall j | 0 < j <= |blocks|
      ensures j <= matched <==> j * snapshot.blockTokens <= count
    {
      ScaledOrder(j, matched, snapshot.blockTokens);
    }
  }

  lemma SnapshotId(m: BlockMap, n: Naming, q: Path)
    requires q != [] && Represents(m, n) && q in n.keyOf
    ensures n.keyOf[q] in m.blocks && IdOf(m, n, q) == Some(m.blocks[n.keyOf[q]].id)
  {
    assert Linked(m, n, q);
  }

  lemma ScaledOrder(a: nat, b: nat, size: nat)
    requires size > 0
    ensures a <= b <==> a * size <= b * size
  {
    var gap: int := b - a;
    assert b * size - a * size == gap * size;
    assert gap >= 0 ==> gap * size >= 0;
    assert gap <= -1 ==> gap * size <= -1 * size;
  }
}
