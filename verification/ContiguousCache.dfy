/** The contiguous cache: one preallocated buffer per layer, written in place, for a single request. It
    is the simple cache whose view the paged cache must agree with. */
module ContiguousCache {
  import opened Common
  import opened CacheErrors
  import opened PagePool
  import opened PrefixTrie
  import opened PagedCacheSpec
  import opened CacheInvariant
  import opened CacheAppend
  import opened CacheRelease

  /** The buffers and the number of valid entries of each layer. */
  datatype Buffers = Buffers(capacity: nat, layers: seq<seq<KvEntry>>, counts: seq<nat>)

  ghost predicate BuffersOk(b: Buffers) {
    && |b.counts| == |b.layers|
    && forall l :: 0 <= l < |b.layers| ==> |b.layers[l]| == b.capacity && b.counts[l] <= b.capacity
  }

  ghost function ContiguousView(b: Buffers, l: nat): (v: seq<KvEntry>)
    requires BuffersOk(b) && l < |b.layers|
    ensures |v| == b.counts[l]
  {
    b.layers[l][..b.counts[l]]
  }

  /** The checks both caches make before an append, in the same order. */
  function ValidateAppend(layerCount: nat, counts: seq<nat>, l: nat, start: nat, values: seq<KvEntry>): Option<CacheError>
    requires |counts| == layerCount
  {
    if l >= layerCount then Some(InvalidLayer)
    else if start != counts[l] then Some(WrongStartPosition)
    else if values == [] then Some(EmptyAppend)
    else None
  }

  class ContiguousKvCache {
    const capacity: nat
    const pool: array<seq<KvEntry>>
    var counts: seq<nat>

    ghost function Value(): Buffers
      reads this, pool
    {
      Buffers(capacity, pool[..], counts)
    }

    ghost predicate Valid()
      reads this, pool
    {
      BuffersOk(Value())
    }

    constructor (layerCount: nat, tokenCapacity: nat, filler: KvEntry)
      ensures Valid() && fresh(pool) && capacity == tokenCapacity && pool.Length == layerCount
      ensures forall l :: 0 <= l < layerCount ==> counts[l] == 0
    {
      capacity := tokenCapacity;
      pool := new seq<KvEntry>[layerCount](_ => seq(tokenCapacity, _ => filler));
      counts := seq(layerCount, _ => 0);
    }

    /** Writes the entries behind the valid ones, or refuses. */
    method AppendNewKeyValue(l: nat, start: nat, values: seq<KvEntry>) returns (error: Option<CacheError>)
      requires Valid()
      modifies this`counts, pool
      ensures Valid()
      ensures error.Some? ==> Value() == old(Value())
      ensures error.None? <==> ValidateAppend(pool.Length, old(counts), l, start, values).None? && start + |values| <= capacity
      ensures ValidateAppend(pool.Length, old(counts), l, start, values).Some? ==>
                error == ValidateAppend(pool.Length, old(counts), l, start, values)
      ensures error.None? ==>
                && ContiguousView(Value(), l) == ContiguousView(old(Value()), l) + values
                && forall m :: 0 <= m < pool.Length && m != l ==> ContiguousView(Value(), m) == ContiguousView(old(Value()), m)
    {
      if l >= pool.Length { return Some(InvalidLayer); }
      var count := counts[l];
      if start != count { return Some(WrongStartPosition); }
      if values == [] { return Some(EmptyAppend); }
      var available := capacity - count;
      if |values| > available { return Some(InsufficientCapacity(|values|, available)); }
      pool[l] := pool[l][..count] + values + pool[l][count + |values|..];
      counts := counts[l := count + |values|];
      error := None;
    }

    /** Shortens every layer, or refuses when some layer holds fewer entries. */
    method Truncate(target: nat) returns (error: Option<CacheError>)
      requires Valid()
      modifies this`counts
      ensures Valid()
      ensures error.None? <==> forall l :: 0 <= l < pool.Length ==> target <= old(counts)[l]
      ensures error.Some? ==> error == Some(CannotTruncate) && Value() == old(Value())
      ensures error.None? ==>
                forall l :: 0 <= l < pool.Length ==>
                  target <= old(counts)[l] && ContiguousView(Value(), l) == ContiguousView(old(Value()), l)[..target]
    {
      for l := 0 to pool.Length
        invariant forall m :: 0 <= m < l ==> target <= counts[m]
      {
        if target > counts[l] { return Some(CannotTruncate); }
      }
      counts := seq(pool.Length, _ => target);
      error := None;
    }

    method Contents(l: nat) returns (r: Result<seq<KvEntry>>)
      requires Valid()
      ensures l < pool.Length ==> r == Ok(ContiguousView(Value(), l))
      ensures l >= pool.Length ==> r == Err(InvalidLayer)
    {
      if l >= pool.Length { return Err(InvalidLayer); }
      r := Ok(pool[l][..counts[l]]);
    }
  }

  // ---- Agreement with the paged cache ---------------------------------------------------------

  /** A request's paged tables show, layer by layer, what the contiguous buffers show. */
  ghost predicate Agree(c: Cache, r: RequestId, b: Buffers) {
    && r in c.tables && BuffersOk(b) && |b.layers| == |c.tables[r].layers|
    && forall l :: 0 <= l < |b.layers| ==> LayerAgrees(c, r, b, l)
  }

  ghost predicate LayerAgrees(c: Cache, r: RequestId, b: Buffers, l: nat)
    requires r in c.tables && BuffersOk(b) && l < |b.layers|
  {
    && l < |c.tables[r].layers| && ViewDefined(c.shared.pool, c.tables[r].layers[l])
    && View(c.shared.pool, c.tables[r].layers[l]) == ContiguousView(b, l)
  }

  /** What an append that both caches accept leaves in the buffers. */
  ghost predicate AppendedBuffers(b: Buffers, b': Buffers, l: nat, values: seq<KvEntry>) {
    && BuffersOk(b) && BuffersOk(b') && |b'.layers| == |b.layers| && l < |b.layers|
    && ContiguousView(b', l) == ContiguousView(b, l) + values
    && forall m :: 0 <= m < |b.layers| && m != l ==> ContiguousView(b', m) == ContiguousView(b, m)
  }

  ghost predicate TruncatedBuffers(b: Buffers, b': Buffers, target: nat) {
    && BuffersOk(b) && BuffersOk(b') && |b'.layers| == |b.layers|
    && forall l :: 0 <= l < |b.layers| ==> target <= b.counts[l] && ContiguousView(b', l) == ContiguousView(b, l)[..target]
  }

  /** Both caches reject the same malformed appends, and after an append that both perform they show
      the same entries again. */
  lemma AppendAgrees(c: Cache, ledger: Ledger, r: RequestId, b: Buffers, b': Buffers, l: nat, start: nat, values: seq<KvEntry>)
    requires Consistent(c, ledger) && Agree(c, r, b)
    ensures |b.counts| == c.shared.layerCount
    ensures var refused := ValidateAppend(c.shared.layerCount, b.counts, l, start, values);
            refused.Some? ==> Append(c.shared, c.tables[r], l, start, values).result == Err(refused.value)
    ensures var step := Append(c.shared, c.tables[r], l, start, values);
            step.result.Ok? && AppendedBuffers(b, b', l, values) ==> Agree(Applied(c, r, step), r, b')
  {
    hide LedgerOk, PrefixClosed, StampsOk, NodesShaped, FreeListExact, EvictUntil, AppendChunks, IndexKept;
    assert CacheOk(c) && |c.tables[r].layers| == c.shared.layerCount by { LayersPerTable(c, r); }
    if l < |b.layers| { assert LayerAgrees(c, r, b, l); }
    var ledger' := AppendExact(c, ledger, r, l, start, values);
    hide Append, CacheOk;
    var step := Append(c.shared, c.tables[r], l, start, values);
    var c' := Applied(c, r, step);
    if step.result.Ok? && AppendedBuffers(b, b', l, values) {
      forall m | 0 <= m < |b'.layers|
        ensures LayerAgrees(c', r, b', m)
      {
        assert LayerAgrees(c, r, b, m);
        if m != l {
          assert ViewKept(c, c', r, m);
          LayerView(c', r, m);
        }
      }
    }
  }

  lemma LayersPerTable(c: Cache, r: RequestId)
    requires CacheOk(c) && r in c.tables
    ensures |c.tables[r].layers| == c.shared.layerCount
  {
  }

  /** Both caches accept the same truncations, whatever was published, and then show the same entries again. */
  lemma TruncateAgrees(c: Cache, ledger: Ledger, r: RequestId, b: Buffers, b': Buffers, target: nat)
    requires Consistent(c, ledger) && Agree(c, r, b)
    ensures |b.counts| == c.shared.layerCount && c.shared.pool.pageTokens > 0
    ensures Truncate(c.shared, c.tables[r], target).result.Ok? <==> forall l :: 0 <= l < |b.counts| ==> target <= b.counts[l]
    ensures var step := Truncate(c.shared, c.tables[r], target);
            step.result.Ok? && TruncatedBuffers(b, b', target) ==> Agree(Applied(c, r, step), r, b')
  {
    hide LedgerOk, PrefixClosed, StampsOk, NodesShaped, FreeListExact, ReleaseAll;
    LayersPerTable(c, r);
    TruncatedLayers(c, r, target);
    forall l | 0 <= l < |b.layers| ensures c.tables[r].layers[l].count == b.counts[l] { assert LayerAgrees(c, r, b, l); }
    if WithinAllLayers(c.tables[r], target) { TruncateCutsViews(c, ledger, r, target); }
    hide Truncate, CacheOk, ViewDefined, View, ContiguousView, BuffersOk;
    var step := Truncate(c.shared, c.tables[r], target);
    var c' := Applied(c, r, step);
    if step.result.Ok? && TruncatedBuffers(b, b', target) {
      forall m | 0 <= m < |b'.layers|
        ensures LayerAgrees(c', r, b', m)
      {
        assert LayerAgrees(c, r, b, m);
        assert CutTo(c, c', r, m, target);
      }
    }
  }

  lemma TruncatedLayers(c: Cache, r: RequestId, target: nat)
    requires CacheOk(c) && r in c.tables
    ensures c.shared.pool.pageTokens > 0 && |Truncate(c.shared, c.tables[r], target).table.layers| == |c.tables[r].layers|
    ensures WithinAllLayers(c.tables[r], target) || Truncate(c.shared, c.tables[r], target).result.Err?
  {
  }
}
