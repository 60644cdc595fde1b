/** The manager: one cache object and the cache state object of every live request. Its methods keep
    the whole-cache invariant, with every cursor linked to the index, and compute on the objects what
    the cache operations compute on values. */
module KvCacheManagerObject {
  import opened Common
  import opened CacheErrors
  import opened PagePool
  import opened PagePoolObject
  import opened PrefixTrie
  import opened PrefixBlockMap
  import opened PrefixIndexObject
  import opened PagedCacheSpec
  import opened RequestCacheStateObject
  import opened PagedKvCacheObject
  import opened CacheInvariant
  import opened CacheAppend
  import opened CacheRelease
  import opened CacheRestore
  import opened CachePublish
  import opened CacheRuns

  class KvCacheManager {
    const cache: PagedKvCache
    var states: map<RequestId, RequestPagedCacheState>

    ghost function Footprint(): set<object>
      reads this
    {
      cache.Footprint() + states.Values
    }

    /** The state object of one request, if it has one. */
    ghost function StateObject(r: RequestId): set<object>
      reads this
    {
      if r in states then {states[r]} else {}
    }

    ghost function Value(): Cache
      reads this, Footprint()
    {
      Cache(cache.Value(), map r | r in states :: states[r].Value())
    }

    /** Every request has its own state object, whose cursor the index knows. */
    ghost predicate Wired()
      reads this, Footprint()
    {
      cache.Valid() && forall r :: r in states ==> cache.Linked(states[r]) && states[r].owner == r
    }

    ghost predicate Valid()
      reads this, Footprint()
    {
      Wired() && Inv(Value())
    }

    constructor (enablePrefixCaching: bool, layers: nat, tokensPerPage: nat, pageCount: nat, filler: KvEntry)
      requires layers > 0 && tokensPerPage > 0
      ensures Valid() && Value() == FreshCache(enablePrefixCaching, layers, tokensPerPage, pageCount, filler)
    {
      cache := new PagedKvCache(enablePrefixCaching, layers, tokensPerPage, pageCount, filler);
      states := map[];
      new;
      hide Inv, FreshPool, FreshCache, SharedShaped, PagedKvCache.Valid, PagedKvCache.Value, Valid, Value, Wired;
      FreshManager(enablePrefixCaching, layers, tokensPerPage, pageCount, filler);
    }

    lemma FreshManager(enablePrefixCaching: bool, layers: nat, tokensPerPage: nat, pageCount: nat, filler: KvEntry)
      requires cache.Valid() && states == map[] && layers > 0 && tokensPerPage > 0
      requires cache.Value() == Shared(enablePrefixCaching, layers, FreshPool(tokensPerPage, pageCount, filler), map[], 0)
      ensures Valid() && Value() == FreshCache(enablePrefixCaching, layers, tokensPerPage, pageCount, filler)
    {
      hide Inv, FreshPool, SharedShaped, PagedKvCache.Valid, PagedKvCache.Value, Valid, Value, Wired;
      FreshInv(enablePrefixCaching, layers, tokensPerPage, pageCount, filler);
      WithoutRequests();
    }

    lemma WithoutRequests()
      requires cache.Valid() && states == map[] && Inv(Cache(cache.Value(), map[]))
      ensures Valid() && Value() == Cache(cache.Value(), map[])
    {
      hide Inv, SharedShaped, PagedKvCache.Valid, PagedKvCache.Value, PagedKvCache.Linked;
      assert Value().tables == map[];
    }

    method StartRequest(r: RequestId) returns (error: Option<CacheError>)
      requires Valid()
      modifies this
      ensures Wired() && (Valid() <==> r in old(states) || |old(states)| < MAX_READERS)
      ensures r in old(states) ==> error == Some(RequestExists) && Value() == old(Value())
      ensures r !in old(states) ==> error == None && Value() == Started(old(Value()), r)
    {
      hide Represents, TrieOf, IdOf, KeyOption, Inv, SharedShaped;
      if r in states { return Some(RequestExists); }
      ghost var c := Value();
      assert c.tables.Keys == states.Keys;
      StartInvIff(c, r);
      var t := new RequestPagedCacheState(cache.layerCount, cache.pool.pageTokens, r);
      cache.RootIsLinked(t);
      assert Value() == c;
      AddState(r, t);
      assert Value() == Started(c, r);
      error := None;
    }

    method AddState(r: RequestId, t: RequestPagedCacheState)
      requires Wired() && r !in states && cache.Linked(t) && t.owner == r
      modifies this
      ensures Wired() && Value() == Cache(old(Value()).shared, old(Value()).tables[r := t.Value()])
    {
      hide Represents, TrieOf, IdOf, KeyOption, SharedShaped;
      ghost var c := Value();
      states := states[r := t];
      assert Value().tables == c.tables[r := t.Value()];
    }

    /** One request's state changed, and every place in the index known before is known as it was. */
    twostate lemma OthersStayLinked(r: RequestId)
      requires old(Wired()) && states == old(states) && r in states && cache.Valid() && cache.Linked(states[r])
      requires forall x :: x in states && x != r ==> unchanged(states[x])
      requires forall u :: old(cache.KnowsPath(u)) ==> cache.KnowsPath(u) && cache.CursorOf(u) == old(cache.CursorOf(u))
      ensures Wired() && Value() == Cache(cache.Value(), old(Value()).tables[r := states[r].Value()])
    {
      hide PagedKvCache.Valid, PagedKvCache.KnowsPath, PagedKvCache.CursorOf;
      forall x | x in states ensures cache.Linked(states[x]) { assert old(cache.Linked(states[x])); }
      assert Value().tables == old(Value()).tables[r := states[r].Value()];
    }

    /** The same when places in the index may be gone. */
    twostate lemma OthersStayRemembered(r: RequestId)
      requires old(Wired()) && states == old(states) && r in states && cache.Remembers(states[r])
      requires forall x :: x in states && x != r ==> unchanged(states[x])
      requires forall u :: old(cache.KnowsPath(u)) && cache.KnowsPath(u) ==> cache.CursorOf(u) == old(cache.CursorOf(u))
      ensures forall x :: x in states ==> cache.Remembers(states[x]) && states[x].owner == x
      ensures Value() == Cache(cache.Value(), old(Value()).tables[r := states[r].Value()])
    {
      hide PagedKvCache.Valid, PagedKvCache.KnowsPath, PagedKvCache.CursorOf;
      forall x | x in states ensures cache.Remembers(states[x]) { assert old(cache.Linked(states[x])); }
      assert Value().tables == old(Value()).tables[r := states[r].Value()];
    }

    /** Restores reusable prefix pages and returns the number of restored tokens. */
    method RestoreCachedPrefix(r: RequestId, tokens: seq<Token>) returns (result: Result<nat>)
      requires Valid()
      modifies cache.Footprint(), StateObject(r)
      ensures Valid()
      ensures if r in states then RestoreDone(old(Value()), r, tokens, Value(), result)
              else result == Err(RequestMissing) && Value() == old(Value())
    {
      hide CacheOk, LedgerOk, SharedShaped, Represents, TrieOf, IdOf, KeyOption, Inv, Restore, TableShaped, StampsOk, Shaped,
        PagedKvCache.Valid, PagedKvCache.KnowsPath, PagedKvCache.CursorOf;
      if r !in states { return Err(RequestMissing); }
      ghost var c := Value();
      ReadyForOperation(c, r);
      RestoreKeepsInv(c, r, tokens);
      result := cache.RestoreCachedPrefix(states[r], tokens);
      OthersStayLinked(r);
    }

    /** Appends new entries to one layer of a request. */
    method AppendNewKeyValue(r: RequestId, l: nat, start: nat, values: seq<KvEntry>) returns (result: Result<nat>)
      requires Valid()
      modifies cache.Footprint(), StateObject(r)
      ensures Valid()
      ensures if r in states then AppendDone(old(Value()), r, l, start, values, Value(), result)
              else result == Err(RequestMissing) && Value() == old(Value())
    {
      hide CacheOk, LedgerOk, SharedShaped, Represents, TrieOf, IdOf, KeyOption, Inv, Append, PagedCacheSpec.Truncate, Publish, Reset,
        TableShaped, StampsOk,
        Shaped, PagedKvCache.Valid, PagedKvCache.KnowsPath, PagedKvCache.CursorOf, AppendAccepted;
      if r !in states { return Err(RequestMissing); }
      ghost var c := Value();
      ReadyForOperation(c, r);
      ghost var c' := AppendKeepsInv(c, r, l, start, values);
      result := AppendToState(r, l, start, values);
      LinkIndexedPaths();
    }

    /** The append itself; that every cursor is still indexed follows from the invariant. */
    method AppendToState(r: RequestId, l: nat, start: nat, values: seq<KvEntry>) returns (result: Result<nat>)
      requires Wired() && r in states && SharedShaped(Value().shared) && TableShaped(Value().shared, Value().tables[r])
      requires StampsOk(Value().shared.trie, Value().shared.clock)
      modifies cache.Footprint(), StateObject(r)
      ensures cache.Valid() && forall x :: x in states ==> cache.Remembers(states[x]) && states[x].owner == x
      ensures AppendDone(old(Value()), r, l, start, values, Value(), result)
    {
      hide CacheOk, LedgerOk, SharedShaped, Represents, TrieOf, IdOf, KeyOption, Inv, Append, PagedCacheSpec.Truncate, Publish, Reset,
        TableShaped, StampsOk,
        Shaped, PagedKvCache.Valid, PagedKvCache.KnowsPath, PagedKvCache.CursorOf, AppendAccepted;
      ghost var c := Value();
      result := cache.AppendNewKeyValue(states[r], l, start, values);
      OthersStayRemembered(r);
    }

    lemma LinkIndexedPaths()
      requires cache.Valid() && Inv(Value())
      requires forall x :: x in states ==> cache.Remembers(states[x]) && states[x].owner == x
      ensures Wired()
    {
      hide Inv, Represents;
      PathsIndexed(Value());
      forall x | x in states ensures cache.Linked(states[x]) {
        assert states[x].path == Value().tables[x].path;
        cache.IndexedPathKnown(states[x].path);
      }
    }

    /** Truncates every layer of a request. The cache stays in order exactly if that goes no lower than the
        request's cursor. */
    method Truncate(r: RequestId, target: nat) returns (result: Result<nat>)
      requires Valid()
      modifies cache.Footprint(), StateObject(r)
      ensures Wired()
      ensures Valid() <==> !CutsBelowCursor(old(Value()), r, target)
      ensures if r in states then TruncateDone(old(Value()), r, target, Value(), result)
              else result == Err(RequestMissing) && Value() == old(Value())
    {
      hide CacheOk, LedgerOk, SharedShaped, Represents, TrieOf, IdOf, KeyOption, Inv, Append, PagedCacheSpec.Truncate, Publish, Reset,
        TableShaped, StampsOk,
        Shaped, PagedKvCache.Valid, PagedKvCache.KnowsPath, PagedKvCache.CursorOf;
      if r !in states { return Err(RequestMissing); }
      ghost var c := Value();
      ReadyForOperation(c, r);
      TruncateKeepsInvIff(c, r, target);
      result := cache.Truncate(states[r], target);
      OthersStayLinked(r);
    }

    /** Publishes the complete blocks a request owns. A publication that succeeds leaves the cache in order
        exactly if every layer has the first one's complete blocks. */
    method PublishCompletedPrefix(r: RequestId, tokens: seq<Token>) returns (result: Result<nat>)
      requires Valid()
      modifies cache.Footprint(), StateObject(r)
      ensures Wired()
      ensures MayPublish(old(Value()), r) ==> Valid()
      ensures old(Value()).shared.enabled && result.Ok? ==> (Valid() <==> MayPublish(old(Value()), r))
      ensures if r in states then PublishDone(old(Value()), r, tokens, Value(), result)
              else result == Err(RequestMissing) && Value() == old(Value())
    {
      hide CacheOk, LedgerOk, SharedShaped, Represents, TrieOf, IdOf, KeyOption, Inv, Append, PagedCacheSpec.Truncate, Publish, Reset,
        TableShaped, StampsOk,
        Shaped, PagedKvCache.Valid, PagedKvCache.KnowsPath, PagedKvCache.CursorOf;
      if r !in states { return Err(RequestMissing); }
      ghost var c := Value();
      ReadyForOperation(c, r);
      if MayPublish(c, r) { PublishKeepsInv(c, r, tokens); }
      PublishKeepsInvIff(c, r, tokens);
      result := cache.PublishCompletedPrefix(states[r], tokens);
      OthersStayLinked(r);
    }

    /** Releases everything a request holds and forgets it. That never fails on a cache in order; should a
        release fail, the request is kept, with nothing left in its tables. */
    method RemoveRequest(r: RequestId) returns (result: Result<nat>)
      requires Wired()
      modifies this`states, cache.Footprint(), StateObject(r)
      ensures Wired() && (old(Valid()) ==> Valid() && (r in old(states) ==> result == Ok(0)))
      ensures if r in old(states) then RemoveDone(old(Value()), r, Value(), result) && states == (if result.Ok? then old(states) - {r} else old(states))
              else result == Err(RequestMissing) && Value() == old(Value()) && states == old(states)
    {
      hide CacheOk, LedgerOk, SharedShaped, Represents, TrieOf, IdOf, KeyOption, Inv, Append, PagedCacheSpec.Truncate, Publish, Reset,
        TableShaped, StampsOk,
        Shaped, PagedKvCache.Valid, PagedKvCache.KnowsPath, PagedKvCache.CursorOf, Removed;
      if r !in states { return Err(RequestMissing); }
      ghost var c := Value();
      if Inv(c) { RemoveKeepsInv(c, r); }
      result := cache.ResetRequest(states[r]);
      OthersStayLinked(r);
      if result.Err? { return; }
      ResetThenForgotten(c, Value(), r);
      ForgetState(r);
    }

    method ForgetState(r: RequestId)
      requires Wired() && r in states
      modifies this`states
      ensures Wired() && states == old(states) - {r}
      ensures Value() == Cache(old(Value()).shared, old(Value()).tables - {r})
    {
      hide Represents, TrieOf, IdOf, KeyOption, SharedShaped, PagedKvCache.KnowsPath, PagedKvCache.CursorOf;
      ghost var c := Value();
      states := states - {r};
      assert Value().tables == c.tables - {r};
    }

    /** Publishes a request's last complete blocks and removes it; a failed publication keeps it. */
    method FinishRequest(r: RequestId, tokens: seq<Token>) returns (result: Result<nat>)
      requires Valid()
      modifies this`states, cache.Footprint(), StateObject(r)
      ensures Wired()
      ensures if r in old(states) then FinishDone(old(Value()), r, tokens, Value(), result)
              else result == Err(RequestMissing) && Value() == old(Value())
      ensures MayPublish(old(Value()), r) ==> Valid() && (result.Ok? ==> r !in states)
    {
      hide CacheOk, LedgerOk, SharedShaped, Represents, TrieOf, IdOf, KeyOption, Inv, Publish, Reset, TableShaped, StampsOk, Shaped, Removed,
        PagedKvCache.Valid, PagedKvCache.KnowsPath, PagedKvCache.CursorOf, PagedKvCache.Linked, MayPublish;
      result := PublishCompletedPrefix(r, tokens);
      if result.Ok? && r in states {
        var removed := RemoveRequest(r);
        if removed.Err? { result := removed; }
      }
    }
  }

  /** The request would lose tokens of a block its cursor has passed. */
  ghost predicate CutsBelowCursor(c: Cache, r: RequestId, target: nat) {
    r in c.tables && WithinAllLayers(c.tables[r], target) && !AtOrAboveCursor(c, r, target)
  }

  /** Every layer of the request, if it exists, has the first one's complete blocks. */
  ghost predicate MayPublish(c: Cache, r: RequestId) {
    r in c.tables ==> BlocksComplete(c.shared, c.tables[r])
  }

  ghost predicate RestoreDone(c: Cache, r: RequestId, tokens: seq<Token>, c': Cache, result: Result<nat>) {
    && r in c.tables && SharedShaped(c.shared) && TableShaped(c.shared, c.tables[r])
    && var step := Restore(c.shared, c.tables[r], tokens);
       c' == Applied(c, r, step) && result == step.result
  }

  ghost predicate AppendDone(c: Cache, r: RequestId, l: nat, start: nat, values: seq<KvEntry>, c': Cache, result: Result<nat>) {
    && r in c.tables && SharedShaped(c.shared) && TableShaped(c.shared, c.tables[r])
    && var step := Append(c.shared, c.tables[r], l, start, values);
       c' == Applied(c, r, step) && result == step.result
  }

  ghost predicate TruncateDone(c: Cache, r: RequestId, target: nat, c': Cache, result: Result<nat>) {
    && r in c.tables && c.shared.pool.pageTokens > 0
    && var step := PagedCacheSpec.Truncate(c.shared, c.tables[r], target);
       c' == Applied(c, r, step) && result == step.result
  }

  ghost predicate PublishDone(c: Cache, r: RequestId, tokens: seq<Token>, c': Cache, result: Result<nat>) {
    && r in c.tables && SharedShaped(c.shared) && TableShaped(c.shared, c.tables[r])
    && var step := Publish(c.shared, c.tables[r], tokens);
       c' == Applied(c, r, step) && result == step.result
  }

  ghost predicate RemoveDone(c: Cache, r: RequestId, c': Cache, result: Result<nat>) {
    && r in c.tables
    && var step := Reset(c.shared, c.tables[r]);
       result == step.result && c' == if step.result.Ok? then Removed(c, r) else Applied(c, r, step)
  }

  ghost predicate FinishDone(c: Cache, r: RequestId, tokens: seq<Token>, c': Cache, result: Result<nat>) {
    && r in c.tables && SharedShaped(c.shared) && TableShaped(c.shared, c.tables[r])
    && var step := Publish(c.shared, c.tables[r], tokens);
       var published := Applied(c, r, step);
       if step.result.Err? then result == step.result && c' == published
       else
         var reset := Reset(published.shared, published.tables[r]);
         RemoveDone(published, r, c', reset.result) && result == if reset.result.Err? then reset.result else step.result
  }

  /** Every request's path is indexed. */
  lemma PathsIndexed(c: Cache)
    requires Inv(c)
    ensures forall x :: x in c.tables && c.tables[x].path != [] ==> c.tables[x].path in c.shared.trie
  {
    forall x | x in c.tables && c.tables[x].path != []
      ensures c.tables[x].path in c.shared.trie
    {
      assert TableOk(c.shared, c.tables[x]);
      assert c.tables[x].path[..|c.tables[x].path|] == c.tables[x].path;
    }
  }

  lemma ReadyForOperation(c: Cache, r: RequestId)
    requires Inv(c) && r in c.tables
    ensures SharedShaped(c.shared) && TableShaped(c.shared, c.tables[r]) && StampsOk(c.shared.trie, c.shared.clock)
    ensures c.shared.pool.pageTokens > 0
  {
  }

  lemma FreshInv(enabled: bool, layers: nat, tokensPerPage: nat, pageCount: nat, filler: KvEntry)
    requires layers > 0 && tokensPerPage > 0
    ensures Inv(FreshCache(enabled, layers, tokensPerPage, pageCount, filler))
  {
    FreshCacheOk(enabled, layers, tokensPerPage, pageCount, filler, (l, tokens) => filler);
    hide CacheOk, LedgerOk;
  }

  /** A page counts its readers, so there must not be more requests than it can count. */
  lemma StartInvIff(c: Cache, r: RequestId)
    requires Inv(c) && r !in c.tables
    ensures Inv(Started(c, r)) <==> |c.tables| < MAX_READERS
    ensures |c.tables.Keys| == |c.tables|
  {
    hide LedgerOk, SharedOk, TableOk;
    var ledger: Ledger :| Consistent(c, ledger);
    if |c.tables| < MAX_READERS {
      StartExact(c, ledger, r);
    }
    if Inv(Started(c, r)) { StartedFits(c, r); }
  }

  lemma StartedFits(c: Cache, r: RequestId)
    requires Inv(Started(c, r)) && r !in c.tables
    ensures |c.tables| < MAX_READERS
  {
    hide LedgerOk, SharedOk, TableOk;
    var c' := Started(c, r);
    assert c'.tables.Keys == c.tables.Keys + {r} && |c'.tables.Keys| == |c'.tables| && |c.tables.Keys| == |c.tables|;
  }

  lemma RestoreKeepsInv(c: Cache, r: RequestId, tokens: seq<Token>)
    requires Inv(c) && r in c.tables
    ensures SharedShaped(c.shared) && TableShaped(c.shared, c.tables[r])
    ensures Inv(Applied(c, r, Restore(c.shared, c.tables[r], tokens)))
  {
    ReadyForOperation(c, r);
    hide CacheOk, LedgerOk, Restore;
    var ledger: Ledger :| Consistent(c, ledger);
    var _ := RestoreExact(c, ledger, r, tokens);
  }

  lemma AppendKeepsInv(c: Cache, r: RequestId, l: nat, start: nat, values: seq<KvEntry>) returns (c': Cache)
    requires Inv(c) && r in c.tables
    ensures SharedShaped(c.shared) && TableShaped(c.shared, c.tables[r])
    ensures c' == Applied(c, r, Append(c.shared, c.tables[r], l, start, values)) && Inv(c')
  {
    ReadyForOperation(c, r);
    hide CacheOk, LedgerOk, Append;
    var ledger: Ledger :| Consistent(c, ledger);
    var _ := AppendExact(c, ledger, r, l, start, values);
    c' := Applied(c, r, Append(c.shared, c.tables[r], l, start, values));
  }

  lemma PublishKeepsInv(c: Cache, r: RequestId, tokens: seq<Token>)
    requires Inv(c) && r in c.tables && BlocksComplete(c.shared, c.tables[r])
    ensures SharedShaped(c.shared) && TableShaped(c.shared, c.tables[r])
    ensures Inv(Applied(c, r, Publish(c.shared, c.tables[r], tokens)))
  {
    ReadyForOperation(c, r);
    hide CacheOk, LedgerOk, Publish, BlocksComplete;
    var ledger: Ledger :| Consistent(c, ledger);
    var _ := PublishExact(c, ledger, r, tokens);
  }

  lemma ResetThenForgotten(c: Cache, c': Cache, r: RequestId)
    requires r in c.tables && c' == Applied(c, r, Reset(c.shared, c.tables[r]))
    ensures Cache(c'.shared, c'.tables - {r}) == Removed(c, r)
  {
    hide Reset;
  }

  lemma RemoveKeepsInv(c: Cache, r: RequestId)
    requires Inv(c) && r in c.tables
    ensures Reset(c.shared, c.tables[r]).result == Ok(0) && Inv(Removed(c, r))
  {
    hide CacheOk, LedgerOk, Reset, Removed;
    var ledger: Ledger :| Consistent(c, ledger);
    var _ := RemoveExact(c, ledger, r);
  }
}
