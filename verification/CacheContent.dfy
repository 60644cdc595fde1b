/** What the cached entries are. A model's key/value entry of a token depends on its layer and on the
    tokens up to it, written `kv(layer, tokens)`; the cache is sound when every indexed page and every
    request's view holds exactly those entries. */
module CacheContent {
  import opened Common
  import opened Arithmetic
  import opened CacheErrors
  import opened PagePool
  import opened PrefixTrie
  import opened PagedCacheSpec
  import opened CacheInvariant
  import opened CacheAppend
  import opened CacheRelease
  import opened CacheAdvance
  import opened CacheRestore
  import opened CachePublish

  type KvFunction = (nat, seq<Token>) -> KvEntry

  /** The tokens up to slot j of the last block of a path. */
  function TokensUpTo(q: Path, j: nat): seq<Token>
    requires q != [] && j < |Last(q)|
  {
    Flatten(q[..|q| - 1]) + Last(q)[..j + 1]
  }

  ghost predicate PageSound(p: Pool, id: PageId, kv: KvFunction, l: nat, q: Path) {
    && id < |p.pages| && q != [] && |Last(q)| == p.pageTokens && |p.pages[id]| == p.pageTokens
    && forall j :: 0 <= j < p.pageTokens ==> p.pages[id][j] == kv(l, TokensUpTo(q, j))
  }

  /** Every indexed page holds the entries of the token path that leads to it. */
  ghost predicate IndexSound(s: Shared, kv: KvFunction) {
    forall q, l :: q in s.trie && 0 <= l < |s.trie[q].pages| ==> PageSound(s.pool, s.trie[q].pages[l], kv, l, q)
  }

  ghost predicate LayerSound(p: Pool, layer: LayerTable, kv: KvFunction, l: nat, tokens: seq<Token>) {
    && ViewDefined(p, layer) && layer.count <= |tokens|
    && forall i :: 0 <= i < layer.count ==> EntryAt(p, layer, i) == kv(l, tokens[..i + 1])
  }

  /** A request's cursor lies on its own tokens and its views hold their entries. */
  ghost predicate RequestSound(s: Shared, t: Table, kv: KvFunction, tokens: seq<Token>) {
    && s.pool.pageTokens > 0
    && t.path <= Blocks(tokens, s.pool.pageTokens)
    && forall l :: 0 <= l < |t.layers| ==> LayerSound(s.pool, t.layers[l], kv, l, tokens)
  }

  ghost predicate Sound(c: Cache, kv: KvFunction, tokens: map<RequestId, seq<Token>>) {
    && IndexSound(c.shared, kv)
    && forall r :: r in c.tables ==> r in tokens && RequestSound(c.shared, c.tables[r], kv, tokens[r])
  }

  // ---- Reading the invariant -----------------------------------------------------------------

  /** What a full recomputation of one layer would produce for the first n tokens. */
  ghost function Recomputed(kv: KvFunction, l: nat, tokens: seq<Token>, n: nat): seq<KvEntry>
    requires n <= |tokens|
  {
    seq(n, i requires 0 <= i < n => kv(l, tokens[..i + 1]))
  }

  /** In a sound cache a view is what full recomputation of the request's tokens would give, whether
      its entries were restored, appended, or adopted from another request's pages. */
  lemma ViewIsRecomputation(c: Cache, kv: KvFunction, tokens: map<RequestId, seq<Token>>, r: RequestId, l: nat)
    requires CacheOk(c) && Sound(c, kv, tokens) && r in c.tables && l < c.shared.layerCount
    ensures l < |c.tables[r].layers| && ViewDefined(c.shared.pool, c.tables[r].layers[l])
    ensures r in tokens && c.tables[r].layers[l].count <= |tokens[r]|
    ensures View(c.shared.pool, c.tables[r].layers[l]) == Recomputed(kv, l, tokens[r], c.tables[r].layers[l].count)
  {
    LayerView(c, r, l);
    assert LayerSound(c.shared.pool, c.tables[r].layers[l], kv, l, tokens[r]);
  }

  lemma SoundFromView(p: Pool, layer: LayerTable, kv: KvFunction, l: nat, tokens: seq<Token>)
    requires ViewDefined(p, layer) && layer.count <= |tokens|
    requires forall i :: 0 <= i < layer.count ==> View(p, layer)[i] == kv(l, tokens[..i + 1])
    ensures LayerSound(p, layer, kv, l, tokens)
  {
    forall i | 0 <= i < layer.count
      ensures EntryAt(p, layer, i) == kv(l, tokens[..i + 1])
    {
      assert View(p, layer)[i] == EntryAt(p, layer, i);
    }
  }

  lemma ViewFromSound(p: Pool, layer: LayerTable, kv: KvFunction, l: nat, tokens: seq<Token>)
    requires LayerSound(p, layer, kv, l, tokens)
    ensures forall i :: 0 <= i < layer.count ==> View(p, layer)[i] == kv(l, tokens[..i + 1])
  {
  }

  /** Slot j of block k of a token sequence is its token k * size + j. */
  lemma BlockTokens(tokens: seq<Token>, size: nat, k: nat, j: nat)
    requires size > 0 && k < |Blocks(tokens, size)| && j < size
    ensures k * size + j + 1 <= |tokens| && |Blocks(tokens, size)[k]| == size
    ensures TokensUpTo(Blocks(tokens, size)[..k + 1], j) == tokens[..k * size + j + 1]
  {
    hide Blocks, Flatten;
    BlocksFlatten(tokens, size, k);
    var b, at := Blocks(tokens, size), k * size;
    assert (k + 1) * size == at + size;
    assert b[..k + 1][..k] == b[..k] && Last(b[..k + 1]) == b[k];
    SliceOn(tokens, at, size, j);
  }

  /** A prefix and the beginning of what follows it. */
  lemma SliceOn(tokens: seq<Token>, at: nat, size: nat, j: nat)
    requires at + size <= |tokens| && j < size
    ensures tokens[..at] + tokens[at..at + size][..j + 1] == tokens[..at + j + 1]
  {
    assert tokens[at..at + size][..j + 1] == tokens[at..at + j + 1];
  }

  lemma IndexTokens(tokens: seq<Token>, size: nat, i: nat)
    requires size > 0 && Div(i, size) < |Blocks(tokens, size)|
    ensures Mod(i, size) < size && i < |tokens| && |Blocks(tokens, size)[Div(i, size)]| == size
    ensures TokensUpTo(Blocks(tokens, size)[..Div(i, size) + 1], Mod(i, size)) == tokens[..i + 1]
  {
    DivMod(i, size);
    BlockTokens(tokens, size, Div(i, size), Mod(i, size));
  }

  // ---- Steps that leave entries alone ---------------------------------------------------------

  lemma IndexKeptSound(c: Cache, c': Cache, kv: KvFunction)
    requires IndexSound(c.shared, kv) && IndexKept(c, c') && c'.shared.pool.pageTokens == c.shared.pool.pageTokens
    ensures IndexSound(c'.shared, kv)
  {
    forall q, l | q in c'.shared.trie && 0 <= l < |c'.shared.trie[q].pages|
      ensures PageSound(c'.shared.pool, c'.shared.trie[q].pages[l], kv, l, q)
    {
      assert BlockKept(c, c', q);
      assert PageSound(c.shared.pool, c.shared.trie[q].pages[l], kv, l, q);
    }
  }

  lemma KeptViewsSound(c: Cache, c': Cache, x: RequestId, kv: KvFunction, tokens: seq<Token>)
    requires CacheOk(c) && CacheOk(c') && x in c.tables && x in c'.tables && c'.tables[x] == c.tables[x]
    requires c'.shared.pool.pageTokens == c.shared.pool.pageTokens && c'.shared.layerCount == c.shared.layerCount
    requires forall l: nat :: ViewKept(c, c', x, l)
    requires RequestSound(c.shared, c.tables[x], kv, tokens)
    ensures RequestSound(c'.shared, c'.tables[x], kv, tokens)
  {
    hide SharedOk, LayerOk, View, LayerSound, ViewDefined;
    forall l | 0 <= l < |c'.tables[x].layers|
      ensures LayerSound(c'.shared.pool, c'.tables[x].layers[l], kv, l, tokens)
    {
      KeptLayerSound(c, c', x, l, kv, tokens);
    }
  }

  lemma KeptLayerSound(c: Cache, c': Cache, x: RequestId, l: nat, kv: KvFunction, tokens: seq<Token>)
    requires CacheOk(c) && CacheOk(c') && ViewKept(c, c', x, l) && x in c.tables && l < c.shared.layerCount
    requires x in c'.tables && l < |c.tables[x].layers| && l < |c'.tables[x].layers|
    requires LayerSound(c.shared.pool, c.tables[x].layers[l], kv, l, tokens)
    ensures LayerSound(c'.shared.pool, c'.tables[x].layers[l], kv, l, tokens)
  {
    hide CacheOk, EntryAt;
    LayerView(c, x, l);
    LayerView(c', x, l);
    ViewFromSound(c.shared.pool, c.tables[x].layers[l], kv, l, tokens);
    var layer, layer' := c.tables[x].layers[l], c'.tables[x].layers[l];
    assert layer'.count == |View(c'.shared.pool, layer')| == |View(c.shared.pool, layer)| == layer.count;
    SoundFromView(c'.shared.pool, layer', kv, l, tokens);
  }

  /** A step of request r keeps the cache sound if it keeps the index and the others' views and leaves
      r itself sound. */
  lemma StepSound(c: Cache, c': Cache, r: RequestId, kv: KvFunction, tokens: map<RequestId, seq<Token>>,
                  tokens': map<RequestId, seq<Token>>)
    requires CacheOk(c) && CacheOk(c') && Sound(c, kv, tokens) && IndexSound(c'.shared, kv)
    requires c'.shared.pool.pageTokens == c.shared.pool.pageTokens && c'.shared.layerCount == c.shared.layerCount
    requires forall x :: x in c'.tables && x != r ==> x in c.tables && c'.tables[x] == c.tables[x]
    requires forall x :: x in tokens && x != r ==> x in tokens' && tokens'[x] == tokens[x]
    requires forall x, l: nat :: x != r ==> ViewKept(c, c', x, l)
    requires r in c'.tables ==> r in tokens' && RequestSound(c'.shared, c'.tables[r], kv, tokens'[r])
    ensures Sound(c', kv, tokens')
  {
    hide CacheOk, RequestSound, IndexSound, ViewKept;
    forall x | x in c'.tables
      ensures x in tokens' && RequestSound(c'.shared, c'.tables[x], kv, tokens'[x])
    {
      if x != r { KeptViewsSound(c, c', x, kv, tokens[x]); }
    }
  }

  // ---- Append --------------------------------------------------------------------------------

  ghost predicate AppendsOwnTokens(c: Cache, r: RequestId, l: nat, values: seq<KvEntry>, kv: KvFunction, tokens: seq<Token>)
    requires r in c.tables && l < |c.tables[r].layers|
  {
    var count := c.tables[r].layers[l].count;
    && count + |values| <= |tokens|
    && forall i :: 0 <= i < |values| ==> values[i] == kv(l, tokens[..count + i + 1])
  }

  /** Appending the entries of a request's next tokens keeps the cache sound, also when the append is
      refused after evicting blocks. */
  lemma AppendSound(c: Cache, ledger: Ledger, r: RequestId, l: nat, values: seq<KvEntry>, kv: KvFunction,
                    tokens: map<RequestId, seq<Token>>) returns (ledger': Ledger)
    requires Consistent(c, ledger) && Sound(c, kv, tokens) && r in c.tables && l < |c.tables[r].layers|
    requires values != [] && AppendsOwnTokens(c, r, l, values, kv, tokens[r])
    ensures var c' := Applied(c, r, Append(c.shared, c.tables[r], l, c.tables[r].layers[l].count, values));
            Consistent(c', ledger') && Sound(c', kv, tokens)
  {
    var t := c.tables[r];
    ledger' := AppendExact(c, ledger, r, l, t.layers[l].count, values);
    var step := Append(c.shared, t, l, t.layers[l].count, values);
    var c' := Applied(c, r, step);
    assert |t.layers| == c.shared.layerCount;
    IndexKeptSound(c, c', kv);
    hide Append, SharedOk, LayerOk, IndexSound, LedgerOk, IndexKept;
    forall m | 0 <= m < |c'.tables[r].layers|
      ensures LayerSound(c'.shared.pool, c'.tables[r].layers[m], kv, m, tokens[r])
    {
      if m == l {
        AppendedLayerSound(c, c', r, l, if step.result.Ok? then values else [], kv, tokens[r]);
      } else {
        assert ViewKept(c, c', r, m);
        KeptLayerSound(c, c', r, m, kv, tokens[r]);
      }
    }
    hide LayerSound, TableOk;
    StepSound(c, c', r, kv, tokens, tokens);
  }

  lemma AppendedLayerSound(c: Cache, c': Cache, r: RequestId, l: nat, written: seq<KvEntry>, kv: KvFunction, tokens: seq<Token>)
    requires r in c.tables && r in c'.tables && l < |c.tables[r].layers| && l < |c'.tables[r].layers|
    requires AppendsOwnTokens(c, r, l, written, kv, tokens)
    requires LayerSound(c.shared.pool, c.tables[r].layers[l], kv, l, tokens)
    requires ViewDefined(c.shared.pool, c.tables[r].layers[l]) && ViewDefined(c'.shared.pool, c'.tables[r].layers[l])
    requires View(c'.shared.pool, c'.tables[r].layers[l]) == View(c.shared.pool, c.tables[r].layers[l]) + written
    ensures LayerSound(c'.shared.pool, c'.tables[r].layers[l], kv, l, tokens)
  {
    hide EntryAt;
    ViewFromSound(c.shared.pool, c.tables[r].layers[l], kv, l, tokens);
    assert c'.tables[r].layers[l].count == |View(c'.shared.pool, c'.tables[r].layers[l])|;
    SoundFromView(c'.shared.pool, c'.tables[r].layers[l], kv, l, tokens);
  }

  // ---- Truncate, start, remove, and a change of the tokens not cached yet ---------------------

  lemma TruncateSound(c: Cache, ledger: Ledger, r: RequestId, target: nat, kv: KvFunction, tokens: map<RequestId, seq<Token>>)
      returns (ledger': Ledger)
    requires Consistent(c, ledger) && Sound(c, kv, tokens) && r in c.tables && AtOrAboveCursor(c, r, target)
    ensures var c' := Applied(c, r, Truncate(c.shared, c.tables[r], target));
            Consistent(c', ledger') && Sound(c', kv, tokens)
  {
    ledger' := TruncateExact(c, ledger, r, target);
    var step := Truncate(c.shared, c.tables[r], target);
    var c' := Applied(c, r, step);
    if WithinAllLayers(c.tables[r], target) {
      TruncateShared(c, ledger, r, target);
      SubIndexKept(c, ledger, c');
      IndexKeptSound(c, c', kv);
      hide Truncate, SharedOk, LayerOk, IndexSound, LedgerOk, IndexKept;
      forall m | 0 <= m < |c'.tables[r].layers|
        ensures LayerSound(c'.shared.pool, c'.tables[r].layers[m], kv, m, tokens[r])
      {
        CutLayerSound(c, c', r, m, target, kv, tokens[r]);
      }
      hide LayerSound, TableOk;
      StepSound(c, c', r, kv, tokens, tokens);
    }
  }

  lemma TruncateShared(c: Cache, ledger: Ledger, r: RequestId, target: nat)
    requires Consistent(c, ledger) && r in c.tables && WithinAllLayers(c.tables[r], target)
    ensures var s' := Truncate(c.shared, c.tables[r], target).shared;
            s' == c.shared.(pool := s'.pool) && s'.pool.pages == c.shared.pool.pages && s'.pool.pageTokens == c.shared.pool.pageTokens
  {
    hide LedgerOk, ReleaseAll, Div, Mod, CeilDiv, PrefixClosed, StampsOk, FreeListExact, NodesShaped;
    ReleaseTail(c, ledger, r, CeilDiv(target, c.shared.pool.pageTokens));
  }

  lemma CutLayerSound(c: Cache, c': Cache, r: RequestId, m: nat, target: nat, kv: KvFunction, tokens: seq<Token>)
    requires CutTo(c, c', r, m, target) && LayerSound(c.shared.pool, c.tables[r].layers[m], kv, m, tokens)
    ensures LayerSound(c'.shared.pool, c'.tables[r].layers[m], kv, m, tokens)
  {
    hide EntryAt;
    ViewFromSound(c.shared.pool, c.tables[r].layers[m], kv, m, tokens);
    SoundFromView(c'.shared.pool, c'.tables[r].layers[m], kv, m, tokens);
  }

  lemma StartSound(c: Cache, ledger: Ledger, r: RequestId, kv: KvFunction, tokens: map<RequestId, seq<Token>>, own: seq<Token>)
    requires Consistent(c, ledger) && Sound(c, kv, tokens) && r !in c.tables && |c.tables| < MAX_READERS
    ensures Consistent(Started(c, r), ledger) && Sound(Started(c, r), kv, tokens[r := own])
  {
    StartExact(c, ledger, r);
    var c' := Started(c, r);
    hide LedgerOk, SharedOk, IndexSound;
    forall l | 0 <= l < |c'.tables[r].layers|
      ensures LayerSound(c'.shared.pool, c'.tables[r].layers[l], kv, l, own)
    {
      LayerView(c', r, l);
    }
    hide LayerSound, TableOk;
    assert c'.shared.pool.pageTokens > 0 by { LayerView(c', r, 0); }
    StepSound(c, c', r, kv, tokens, tokens[r := own]);
  }

  lemma RemoveSound(c: Cache, ledger: Ledger, r: RequestId, kv: KvFunction, tokens: map<RequestId, seq<Token>>)
      returns (ledger': Ledger)
    requires Consistent(c, ledger) && Sound(c, kv, tokens) && r in c.tables
    ensures Consistent(Removed(c, r), ledger') && Sound(Removed(c, r), kv, tokens)
  {
    ledger' := RemoveExact(c, ledger, r);
    var c' := Removed(c, r);
    ResetShared(c, ledger, r);
    SubIndexKept(c, ledger, c');
    IndexKeptSound(c, c', kv);
    hide Reset, SharedOk, TableOk, IndexSound, LedgerOk, IndexKept;
    StepSound(c, c', r, kv, tokens, tokens);
  }

  lemma ResetShared(c: Cache, ledger: Ledger, r: RequestId)
    requires Consistent(c, ledger) && r in c.tables
    ensures var s' := Reset(c.shared, c.tables[r]).shared;
            s' == c.shared.(pool := s'.pool) && s'.pool.pages == c.shared.pool.pages && s'.pool.pageTokens == c.shared.pool.pageTokens
  {
    hide LedgerOk, ReleaseAll, PrefixClosed, StampsOk, FreeListExact, NodesShaped;
    ReleaseTail(c, ledger, r, 0);
  }

  /** Tokens that are not cached yet may change: drafted tokens are replaced by committed ones. */
  ghost predicate AgreesOnCached(t: Table, before: seq<Token>, after: seq<Token>) {
    forall l :: 0 <= l < |t.layers| ==>
      t.layers[l].count <= |before| && t.layers[l].count <= |after| && after[..t.layers[l].count] == before[..t.layers[l].count]
  }

  lemma RetokenLayerSound(p: Pool, layer: LayerTable, kv: KvFunction, l: nat, before: seq<Token>, after: seq<Token>)
    requires LayerSound(p, layer, kv, l, before)
    requires layer.count <= |after| && after[..layer.count] == before[..layer.count]
    ensures LayerSound(p, layer, kv, l, after)
  {
    hide EntryAt, ViewDefined;
    forall i | 0 <= i < layer.count
      ensures EntryAt(p, layer, i) == kv(l, after[..i + 1])
    {
      assert after[..i + 1] == after[..layer.count][..i + 1] == before[..layer.count][..i + 1] == before[..i + 1];
    }
  }

  lemma RetokenSound(c: Cache, ledger: Ledger, r: RequestId, kv: KvFunction, tokens: map<RequestId, seq<Token>>, own: seq<Token>)
    requires Consistent(c, ledger) && Sound(c, kv, tokens) && r in c.tables && AgreesOnCached(c.tables[r], tokens[r], own)
    ensures Sound(c, kv, tokens[r := own])
  {
    var t := c.tables[r];
    PathOnAgreedTokens(c, r, tokens[r], own);
    hide CacheOk, LedgerOk, LayerSound, IndexSound, Blocks;
    forall l | 0 <= l < |t.layers|
      ensures LayerSound(c.shared.pool, t.layers[l], kv, l, own)
    {
      RetokenLayerSound(c.shared.pool, t.layers[l], kv, l, tokens[r], own);
    }
  }

  lemma PathOnAgreedTokens(c: Cache, r: RequestId, before: seq<Token>, after: seq<Token>)
    requires CacheOk(c) && r in c.tables && AgreesOnCached(c.tables[r], before, after)
    requires c.tables[r].path <= Blocks(before, c.shared.pool.pageTokens)
    ensures c.tables[r].path <= Blocks(after, c.shared.pool.pageTokens)
  {
    var t, size := c.tables[r], c.shared.pool.pageTokens;
    var n := t.layers[0].count;
    assert LayerOk(c.shared, t, 0);
    hide PrefixClosed, StampsOk, FreeListExact, NodesShaped;
    BlocksOfPrefix(before, n, size);
    BlocksOfPrefix(after, n, size);
    BlocksShape(before[..n], size);
    assert before[..n] == after[..n];
  }

  // ---- Restore -------------------------------------------------------------------------------

  lemma PathPageSound(s: Shared, q: Path, kv: KvFunction, l: nat, k: nat)
    requires SharedShaped(s) && MatchIndexed(s, q) && IndexSound(s, kv) && l < s.layerCount && k < |q|
    ensures q[..k + 1] in s.trie && l < |s.trie[q[..k + 1]].pages|
    ensures PageSound(s.pool, s.trie[q[..k + 1]].pages[l], kv, l, q[..k + 1])
  {
    assert q[..k + 1] in s.trie;
  }

  /** Entries read through indexed pages along a request's own path are its own entries. */
  lemma PathEntriesSound(s: Shared, layer: LayerTable, q: Path, kv: KvFunction, l: nat, tokens: seq<Token>, i: nat)
    requires SharedShaped(s) && MatchIndexed(s, q) && IndexSound(s, kv) && l < s.layerCount
    requires q <= Blocks(tokens, s.pool.pageTokens) && ViewDefined(s.pool, layer) && i < layer.count
    requires Div(i, s.pool.pageTokens) < |q| && Div(i, s.pool.pageTokens) < |layer.pages|
    requires layer.pages[Div(i, s.pool.pageTokens)] == s.trie[q[..Div(i, s.pool.pageTokens) + 1]].pages[l]
    ensures i < |tokens| && EntryAt(s.pool, layer, i) == kv(l, tokens[..i + 1])
  {
    hide Div, Mod, CeilDiv, Blocks, IndexSound, SharedShaped, MatchIndexed, TokensUpTo;
    var size := s.pool.pageTokens;
    var k, j := Div(i, size), Mod(i, size);
    var b := q[..k + 1];
    PathPageSound(s, q, kv, l, k);
    IndexTokens(tokens, size, i);
    assert b == Blocks(tokens, size)[..k + 1];
  }

  lemma RestoreSound(c: Cache, ledger: Ledger, r: RequestId, prefix: seq<Token>, kv: KvFunction, tokens: map<RequestId, seq<Token>>)
      returns (ledger': Ledger)
    requires Consistent(c, ledger) && Sound(c, kv, tokens) && r in c.tables && prefix <= tokens[r]
    ensures var c' := Applied(c, r, Restore(c.shared, c.tables[r], prefix));
            Consistent(c', ledger') && Sound(c', kv, tokens)
  {
    ledger' := RestoreExact(c, ledger, r, prefix);
    var step := Restore(c.shared, c.tables[r], prefix);
    var c' := Applied(c, r, step);
    if c.shared.enabled && !IsPopulated(c.tables[r]) {
      RestoreComputes(c, ledger, r, prefix);
      var q := MatchedPath(c.shared, prefix);
      hide Restore, LayerOk, PrefixClosed, StampsOk, FreeListExact, Blocks, Div, Mod, CeilDiv, PathRows, RestoredTable, RequestSound;
      TouchKeepsPages(c.shared.trie, q, 0, |q|, c.shared.clock);
      SubIndexKept(c, ledger, c');
      IndexKeptSound(c, c', kv);
      hide LedgerOk, IndexKept, IndexSound, SharedOk;
      RestoredRequestSound(c', r, prefix, kv, tokens[r]);
      hide CacheOk;
      StepSound(c, c', r, kv, tokens, tokens);
    }
  }

  lemma RestoredRequestSound(c: Cache, r: RequestId, prefix: seq<Token>, kv: KvFunction, tokens: seq<Token>)
    requires CacheOk(c) && r in c.tables && IndexSound(c.shared, kv) && prefix <= tokens
    requires c.tables[r].path <= Blocks(prefix, c.shared.pool.pageTokens)
    requires forall l :: 0 <= l < |c.tables[r].layers| ==>
               c.tables[r].layers[l].count == |c.tables[r].path| * c.shared.pool.pageTokens
    ensures RequestSound(c.shared, c.tables[r], kv, tokens)
  {
    hide LayerOk, PrefixClosed, StampsOk, FreeListExact, Blocks, Div, Mod, CeilDiv, IndexSound, LayerSound;
    assert prefix == tokens[..|prefix|];
    BlocksOfPrefix(tokens, |prefix|, c.shared.pool.pageTokens);
    forall l | 0 <= l < |c.tables[r].layers|
      ensures LayerSound(c.shared.pool, c.tables[r].layers[l], kv, l, tokens)
    {
      RestoredLayerSound(c, r, c.tables[r].path, kv, l, tokens);
    }
  }

  lemma RestoredLayerSound(c: Cache, r: RequestId, q: Path, kv: KvFunction, l: nat, tokens: seq<Token>)
    requires CacheOk(c) && r in c.tables && l < |c.tables[r].layers| && IndexSound(c.shared, kv)
    requires c.tables[r].path == q && q <= Blocks(tokens, c.shared.pool.pageTokens)
    requires c.tables[r].layers[l].count == |q| * c.shared.pool.pageTokens
    ensures LayerSound(c.shared.pool, c.tables[r].layers[l], kv, l, tokens)
  {
    LayerView(c, r, l);
    var layer, size := c.tables[r].layers[l], c.shared.pool.pageTokens;
    assert LayerOk(c.shared, c.tables[r], l);
    hide PrefixClosed, StampsOk, FreeListExact, Blocks, Div, Mod, CeilDiv, IndexSound, EntryAt;
    BlocksFlatten(tokens, size, |q|);
    MulDiv(|q|, size);
    forall i | 0 <= i < layer.count
      ensures EntryAt(c.shared.pool, layer, i) == kv(l, tokens[..i + 1])
    {
      PageOfIndex(i, layer.count, size);
      PathEntriesSound(c.shared, layer, q, kv, l, tokens, i);
    }
  }

  // ---- Publish -------------------------------------------------------------------------------

  /** The tokens a request publishes under are its own, as far as they are cached. */
  ghost predicate PublishesOwnTokens(t: Table, published: seq<Token>, own: seq<Token>) {
    CachedCount(t) <= |published| && CachedCount(t) <= |own| && published[..CachedCount(t)] == own[..CachedCount(t)]
  }

  lemma PublishedPathIsOwn(c: Cache, r: RequestId, published: seq<Token>, own: seq<Token>)
    requires CacheOk(c) && r in c.tables && BlocksComplete(c.shared, c.tables[r]) && PublishesOwnTokens(c.tables[r], published, own)
    requires c.tables[r].path <= Blocks(own, c.shared.pool.pageTokens)
    ensures var t := c.tables[r];
            && |t.path| <= |Blocks(published[..CachedCount(t)], c.shared.pool.pageTokens)|
            && PublishedPath(c.shared, t, published) == Blocks(own[..CachedCount(t)], c.shared.pool.pageTokens)
            && PublishedPath(c.shared, t, published) <= Blocks(own, c.shared.pool.pageTokens)
            && |PublishedPath(c.shared, t, published)| == Div(CachedCount(t), c.shared.pool.pageTokens)
  {
    CompletedBlocks(c, r, published);
    var t, size := c.tables[r], c.shared.pool.pageTokens;
    hide PrefixClosed, StampsOk, FreeListExact, NodesShaped, Blocks, Div, Mod, CeilDiv;
    BlocksOfPrefix(own, CachedCount(t), size);
    BlocksShape(own[..CachedCount(t)], size);
    var blocks := Blocks(own[..CachedCount(t)], size);
    assert published[..CachedCount(t)] == own[..CachedCount(t)];
    assert t.path == blocks[..|t.path|];
  }

  /** A page that a request filled with its own entries is a sound page of its path. */
  lemma OwnPageSound(p: Pool, layer: LayerTable, kv: KvFunction, l: nat, tokens: seq<Token>, k: nat)
    requires LayerSound(p, layer, kv, l, tokens) && k < Div(layer.count, p.pageTokens) && k < |layer.pages|
    ensures k < |Blocks(tokens, p.pageTokens)|
    ensures PageSound(p, layer.pages[k], kv, l, Blocks(tokens, p.pageTokens)[..k + 1])
  {
    var size := p.pageTokens;
    BlocksShape(tokens, size);
    DivMonotone(layer.count, |tokens|, size);
    var q := Blocks(tokens, size)[..k + 1];
    hide Blocks, CeilDiv, TokensUpTo;
    forall j | 0 <= j < size
      ensures p.pages[layer.pages[k]][j] == kv(l, TokensUpTo(q, j))
    {
      SlotIndex(layer.count, size, k, j);
      BlockTokens(tokens, size, k, j);
      assert EntryAt(p, layer, k * size + j) == kv(l, tokens[..k * size + j + 1]);
    }
  }

  lemma SlotIndex(n: nat, d: nat, k: nat, j: nat)
    requires d > 0 && k < Div(n, d) && j < d
    ensures k * d + j < n && Div(k * d + j, d) == k && Mod(k * d + j, d) == j
  {
    DivUnique(k * d + j, d, k, j);
    DivMod(n, d);
    hide Div, Mod;
    var gap: nat := Div(n, d) - (k + 1);
    assert Div(n, d) * d == gap * d + (k + 1) * d && (k + 1) * d == k * d + d && gap * d >= 0;
  }

  lemma PublishedIndexSound(c: Cache, c': Cache, r: RequestId, full: Path, m: nat, kv: KvFunction, tokens: seq<Token>)
    requires CacheOk(c) && r in c.tables && IndexSound(c.shared, kv)
    requires TrieAdvanced(c.shared.trie, c'.shared.trie, c.tables[r], full, m)
    requires c'.shared.pool.pages == c.shared.pool.pages && c'.shared.pool.pageTokens == c.shared.pool.pageTokens
    requires full <= Blocks(tokens, c.shared.pool.pageTokens)
    requires forall l :: 0 <= l < |c.tables[r].layers| ==>
               && |full| <= Div(c.tables[r].layers[l].count, c.shared.pool.pageTokens)
               && LayerSound(c.shared.pool, c.tables[r].layers[l], kv, l, tokens)
    ensures IndexSound(c'.shared, kv)
  {
    hide CacheOk, Div, Mod, CeilDiv, Blocks, LayerSound, PageSound, TrieAdvanced;
    PageTokensPositive(c);
    forall q, l | q in c'.shared.trie && 0 <= l < |c'.shared.trie[q].pages|
      ensures PageSound(c'.shared.pool, c'.shared.trie[q].pages[l], kv, l, q)
    {
      if q in c.shared.trie {
        OldBlockPages(c, c', r, full, m, q);
        assert PageSound(c.shared.pool, c.shared.trie[q].pages[l], kv, l, q);
      } else {
        NewBlockPages(c, c', r, full, m, q, l);
        OwnPageSound(c.shared.pool, c.tables[r].layers[l], kv, l, tokens, |q| - 1);
        assert q == Blocks(tokens, c.shared.pool.pageTokens)[..|q| - 1 + 1];
      }
      SamePageSound(c.shared.pool, c'.shared.pool, c'.shared.trie[q].pages[l], kv, l, q);
    }
  }

  lemma SamePageSound(p: Pool, p': Pool, id: PageId, kv: KvFunction, l: nat, q: Path)
    requires PageSound(p, id, kv, l, q) && p'.pages == p.pages && p'.pageTokens == p.pageTokens
    ensures PageSound(p', id, kv, l, q)
  {
  }

  lemma OldBlockPages(c: Cache, c': Cache, r: RequestId, full: Path, m: nat, q: Path)
    requires r in c.tables && TrieAdvanced(c.shared.trie, c'.shared.trie, c.tables[r], full, m) && q in c.shared.trie
    ensures q in c'.shared.trie && c'.shared.trie[q].pages == c.shared.trie[q].pages
  {
  }

  /** A new block's pages are the request's own at the block's depth. */
  lemma NewBlockPages(c: Cache, c': Cache, r: RequestId, full: Path, m: nat, q: Path, l: nat)
    requires r in c.tables && TrieAdvanced(c.shared.trie, c'.shared.trie, c.tables[r], full, m)
    requires q in c'.shared.trie && q !in c.shared.trie && l < |c'.shared.trie[q].pages|
    ensures q != [] && |q| <= |full| && q == full[..|q|] && l < |c.tables[r].layers| && |q| <= |c.tables[r].layers[l].pages|
    ensures c'.shared.trie[q].pages[l] == c.tables[r].layers[l].pages[|q| - 1]
  {
    assert q in NewPaths(full, m);
    assert NodeFromTable(c'.shared.trie[q], c.tables[r], q);
  }

  lemma PublishedLayerSound(c: Cache, c': Cache, r: RequestId, full: Path, m: nat, kv: KvFunction, l: nat, tokens: seq<Token>)
    requires CacheOk(c) && CacheOk(c') && r in c.tables && r in c'.tables && IndexSound(c'.shared, kv)
    requires l < |c.tables[r].layers| && l < |c'.tables[r].layers| && m <= |full|
    requires c'.shared.pool.pages == c.shared.pool.pages && c'.shared.pool.pageTokens == c.shared.pool.pageTokens
    requires c'.tables[r].path == full && full <= Blocks(tokens, c.shared.pool.pageTokens)
    requires LayerAdvanced(c.tables[r].layers[l], c'.tables[r].layers[l], full, m)
    requires c'.tables[r].layers[l].count == c.tables[r].layers[l].count
    requires LayerSound(c.shared.pool, c.tables[r].layers[l], kv, l, tokens)
    ensures LayerSound(c'.shared.pool, c'.tables[r].layers[l], kv, l, tokens)
  {
    hide CacheOk, PrefixClosed, StampsOk, FreeListExact, NodesShaped, Blocks, Div, Mod, CeilDiv, IndexSound, SharedShaped, MatchIndexed, ViewDefined;
    LayerOnPath(c', r, l);
    var layer, layer' := c.tables[r].layers[l], c'.tables[r].layers[l];
    forall i | 0 <= i < layer'.count
      ensures EntryAt(c'.shared.pool, layer', i) == kv(l, tokens[..i + 1])
    {
      PageTokensPositive(c');
      PageOfIndex(i, layer'.count, c'.shared.pool.pageTokens);
      if Div(i, c'.shared.pool.pageTokens) < |full| {
        PathEntriesSound(c'.shared, layer', full, kv, l, tokens, i);
      } else {
        BeyondPathSame(c.shared.pool, c'.shared.pool, layer, layer', full, m, i);
      }
    }
  }

  /** A layer of a table in order: its first pages are those of the request's path. */
  lemma LayerOnPath(c: Cache, r: RequestId, l: nat)
    requires CacheOk(c) && r in c.tables && l < |c.tables[r].layers|
    ensures var (s, t) := (c.shared, c.tables[r]);
            && SharedShaped(s) && MatchIndexed(s, t.path) && l < s.layerCount && ViewDefined(s.pool, t.layers[l])
            && |t.path| <= |t.layers[l].pages|
            && forall k :: 0 <= k < |t.path| ==> l < |s.trie[t.path[..k + 1]].pages| && t.layers[l].pages[k] == s.trie[t.path[..k + 1]].pages[l]
  {
    LayerView(c, r, l);
    assert LayerOk(c.shared, c.tables[r], l);
  }

  lemma BeyondPathSame(p: Pool, p': Pool, layer: LayerTable, layer': LayerTable, full: Path, m: nat, i: nat)
    requires ViewDefined(p, layer) && ViewDefined(p', layer') && p'.pages == p.pages && p'.pageTokens == p.pageTokens
    requires LayerAdvanced(layer, layer', full, m) && m <= |full| && layer'.count == layer.count && i < layer.count
    requires Div(i, p.pageTokens) >= |full|
    ensures EntryAt(p', layer', i) == EntryAt(p, layer, i)
  {
    hide Div, Mod, CeilDiv;
    PageOfIndex(i, layer.count, p.pageTokens);
  }

  /** Publishing keeps the cache sound: new index pages hold their path's entries, and adopting the
      canonical pages of blocks that were already indexed leaves the request's own view unchanged. */
  lemma PublishSound(c: Cache, ledger: Ledger, r: RequestId, published: seq<Token>, kv: KvFunction,
                     tokens: map<RequestId, seq<Token>>) returns (ledger': Ledger)
    requires Consistent(c, ledger) && Sound(c, kv, tokens) && r in c.tables && BlocksComplete(c.shared, c.tables[r])
    requires PublishesOwnTokens(c.tables[r], published, tokens[r])
    ensures var step := Publish(c.shared, c.tables[r], published);
            var c' := Applied(c, r, step);
            && step.result.Ok? && Consistent(c', ledger') && Sound(c', kv, tokens)
            && forall l: nat :: ViewKept(c, c', r, l)
  {
    hide Publish, LedgerOk, PrefixClosed, StampsOk, FreeListExact, NodesShaped, Blocks, Div, Mod, CeilDiv, LayerOk, LayerSound,
         TrieAdvanced, Branches, IndexSound, PublishedPath, LayerAdvanced, ViewKept;
    ledger' := PublishExact(c, ledger, r, published);
    var step := Publish(c.shared, c.tables[r], published);
    var c' := Applied(c, r, step);
    if c.shared.enabled {
      PublishKeepsShape(c, ledger, r, published);
      var t := c.tables[r];
      PublishedPathIsOwn(c, r, published, tokens[r]);
      var full := PublishedPath(c.shared, t, published);
      var m := MatchFrom(c.shared.trie, full, |t.path|);
      PublishedIndexSound(c, c', r, full, m, kv, tokens[r]);
      forall l | 0 <= l < |c'.tables[r].layers|
        ensures LayerSound(c'.shared.pool, c'.tables[r].layers[l], kv, l, tokens[r])
      {
        PublishedLayerSound(c, c', r, full, m, kv, l, tokens[r]);
      }
      hide SharedOk, TableOk;
      StepSound(c, c', r, kv, tokens, tokens);
      OwnViewKept(c, c', r, kv, tokens);
    } else {
      SamePagesSameViews(c, c');
    }
  }

  lemma PublishKeepsShape(c: Cache, ledger: Ledger, r: RequestId, published: seq<Token>)
    requires Consistent(c, ledger) && r in c.tables && BlocksComplete(c.shared, c.tables[r]) && c.shared.enabled
    requires CachedCount(c.tables[r]) <= |published|
    ensures var s' := Publish(c.shared, c.tables[r], published).shared;
            s'.pool.pageTokens == c.shared.pool.pageTokens && s'.layerCount == c.shared.layerCount
  {
    PublishComputes(c, ledger, r, published);
    var full := PublishedPath(c.shared, c.tables[r], published);
    CommittedExact(c, ledger, r, full, MatchFrom(c.shared.trie, full, |c.tables[r].path|));
    hide CommitPublication, Consistent, Publishing, TrieAdvanced, LayersAdvanced, AdvanceStep, CacheOk, Blocks;
  }

  lemma OwnViewKept(c: Cache, c': Cache, r: RequestId, kv: KvFunction, tokens: map<RequestId, seq<Token>>)
    requires CacheOk(c) && CacheOk(c') && Sound(c, kv, tokens) && Sound(c', kv, tokens) && r in c.tables && r in c'.tables
    requires c'.shared.layerCount == c.shared.layerCount && |c'.tables[r].layers| == |c.tables[r].layers|
    requires forall l :: 0 <= l < |c.tables[r].layers| ==> c'.tables[r].layers[l].count == c.tables[r].layers[l].count
    ensures forall l: nat :: ViewKept(c, c', r, l)
  {
    forall l: nat
      ensures ViewKept(c, c', r, l)
    {
      if l < c.shared.layerCount {
        ViewIsRecomputation(c, kv, tokens, r, l);
        ViewIsRecomputation(c', kv, tokens, r, l);
      }
    }
  }
}
