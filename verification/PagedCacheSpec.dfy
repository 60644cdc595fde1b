/** The operations of the paged KV cache as functions: each maps the shared pages and index together
    with one request's block tables to their new values and a result. */
module PagedCacheSpec {
  import opened Common
  import opened Arithmetic
  import opened CacheErrors
  import opened PagePool
  import opened PrefixTrie

  datatype LayerTable = LayerTable(pages: seq<PageId>, count: nat)

  /** A request's block tables. `path` is the publication cursor, named by the block path it has
      reached; its token count is the path length times the page size. */
  datatype Table = Table(layers: seq<LayerTable>, path: Path)

  datatype Shared = Shared(enabled: bool, layerCount: nat, pool: Pool, trie: Trie, clock: nat)

  datatype Step = Step(shared: Shared, table: Table, result: Result<nat>)

  ghost predicate SharedShaped(s: Shared) {
    && Shaped(s.pool) && s.layerCount > 0
    && NodesShaped(s.trie, s.pool.pageTokens, s.layerCount)
  }

  ghost predicate TableShaped(s: Shared, t: Table) {
    && |t.layers| == s.layerCount
    && (forall l, i :: 0 <= l < |t.layers| && 0 <= i < |t.layers[l].pages| ==> t.layers[l].pages[i] < |s.pool.states|)
  }

  function EmptyTable(layerCount: nat): Table {
    Table(seq(layerCount, _ => LayerTable([], 0)), [])
  }

  /** The request-wide count is the first layer's. */
  function CachedCount(t: Table): nat {
    if t.layers == [] then 0 else t.layers[0].count
  }

  predicate IsPopulated(t: Table) {
    exists l :: 0 <= l < |t.layers| && (t.layers[l].count != 0 || t.layers[l].pages != [])
  }

  /** The cached entries of one layer in token order. */
  ghost function View(p: Pool, layer: LayerTable): (v: seq<KvEntry>)
    requires ViewDefined(p, layer)
    ensures |v| == layer.count
  {
    seq(layer.count, i requires 0 <= i < layer.count => EntryAt(p, layer, i))
  }

  ghost predicate ViewDefined(p: Pool, layer: LayerTable) {
    && Shaped(p)
    && CeilDiv(layer.count, p.pageTokens) <= |layer.pages|
    && (forall i :: 0 <= i < |layer.pages| ==> layer.pages[i] < |p.states|)
  }

  ghost function EntryAt(p: Pool, layer: LayerTable, i: nat): KvEntry
    requires ViewDefined(p, layer) && i < layer.count
  {
    PageOfIndex(i, layer.count, p.pageTokens);
    p.pages[layer.pages[Div(i, p.pageTokens)]][Mod(i, p.pageTokens)]
  }

  // ---- restore -------------------------------------------------------------------------------

  /** The pages of an indexed path, layer by layer. */
  ghost function PathRows(s: Shared, path: Path): (rows: seq<seq<PageId>>)
    requires SharedShaped(s) && forall k :: 0 < k <= |path| ==> path[..k] in s.trie
    ensures |rows| == s.layerCount
    ensures forall l :: 0 <= l < |rows| ==>
              |rows[l]| == |path| && forall k :: 0 <= k < |path| ==> rows[l][k] == s.trie[path[..k + 1]].pages[l]
  {
    seq(s.layerCount, l requires 0 <= l < s.layerCount =>
      seq(|path|, k requires 0 <= k < |path| => s.trie[path[..k + 1]].pages[l]))
  }

  ghost predicate MatchIndexed(s: Shared, path: Path) {
    forall k :: 0 < k <= |path| ==> path[..k] in s.trie
  }

  lemma {:induction false} MatchedPrefixIndexed(t: Trie, path: Path, k: nat)
    requires k <= |path| && forall j :: 0 < j <= k ==> path[..j] in t
    ensures forall j :: 0 < j <= MatchFrom(t, path, k) ==> path[..j] in t
    decreases |path| - k
  {
    if k < |path| && path[..k + 1] in t {
      MatchedPrefixIndexed(t, path, k + 1);
    }
  }

  ghost function MatchedPath(s: Shared, tokens: seq<Token>): (q: Path)
    requires SharedShaped(s)
    ensures MatchIndexed(s, q) && q <= Blocks(tokens, s.pool.pageTokens)
    ensures |q| == LongestMatch(s.trie, Blocks(tokens, s.pool.pageTokens))
  {
    var b := Blocks(tokens, s.pool.pageTokens);
    MatchedPrefixIndexed(s.trie, b, 0);
    var m := LongestMatch(s.trie, b);
    assert forall k :: 0 < k <= m ==> b[..m][..k] == b[..k];
    b[..m]
  }

  /** A table attached to an indexed path. */
  ghost function RestoredTable(s: Shared, q: Path): (t: Table)
    requires SharedShaped(s) && MatchIndexed(s, q)
    ensures |t.layers| == s.layerCount && t.path == q
    ensures forall l :: 0 <= l < |t.layers| ==>
              t.layers[l].count == |q| * s.pool.pageTokens && t.layers[l].pages == PathRows(s, q)[l]
  {
    Table(seq(s.layerCount, l requires 0 <= l < s.layerCount => LayerTable(PathRows(s, q)[l], |q| * s.pool.pageTokens)), q)
  }

  ghost function Restore(s: Shared, t: Table, tokens: seq<Token>): Step
    requires SharedShaped(s) && TableShaped(s, t)
  {
    if !s.enabled then Step(s, t, Ok(0))
    else if IsPopulated(t) then Step(s, t, Err(TableAlreadyPopulated))
    else
      var q := MatchedPath(s, tokens);
      var retained := RetainAll(s.pool, Flatten(PathRows(s, q)));
      var s' := Shared(s.enabled, s.layerCount, retained.pool, Touch(s.trie, q, 0, |q|, s.clock), s.clock + 1);
      match retained.error
      case Some(e) => Step(s', t, Err(e))
      case None => Step(s', RestoredTable(s, q), Ok(CachedCount(RestoredTable(s, q))))
  }

  // ---- append --------------------------------------------------------------------------------

  datatype SharedStep = SharedStep(shared: Shared, error: Option<CacheError>)

  /** Evicts inactive least recently used leaves until enough pages are free or none is eligible. */
  ghost function EvictUntil(s: Shared, required: nat): SharedStep
    decreases |s.trie|
  {
    if |s.pool.free| >= required || !s.enabled then SharedStep(s, None)
    else
      match Victim(s.trie, s.pool)
      case None => SharedStep(s, None)
      case Some(v) =>
        var released := ReleaseAll(s.pool, s.trie[v].pages);
        var s' := s.(pool := released.pool, trie := s.trie - {v});
        assert s'.trie.Keys == s.trie.Keys - {v};
        if released.error.Some? then SharedStep(s', released.error) else EvictUntil(s', required)
  }

  function PushPage(t: Table, l: nat, id: PageId): Table
    requires l < |t.layers|
  {
    t.(layers := t.layers[l := t.layers[l].(pages := t.layers[l].pages + [id])])
  }

  function AddCount(t: Table, l: nat, n: nat): Table
    requires l < |t.layers|
  {
    t.(layers := t.layers[l := t.layers[l].(count := t.layers[l].count + n)])
  }

  /** Opens a page when the last one is full. */
  function OpenPage(s: Shared, t: Table, l: nat): Result<(Shared, Table)>
    requires Shaped(s.pool) && l < |t.layers|
  {
    if Mod(t.layers[l].count, s.pool.pageTokens) != 0 then Ok((s, t))
    else
      match Allocate(s.pool)
      case Err(e) => Err(e)
      case Ok((p, id)) => Ok((s.(pool := p), PushPage(t, l, id)))
  }

  function ChunkLength(pageTokens: nat, count: nat, remaining: nat): (n: nat)
    requires pageTokens > 0 && remaining > 0
    ensures 0 < n <= remaining && n <= pageTokens - Mod(count, pageTokens)
  {
    Min(pageTokens - Mod(count, pageTokens), remaining)
  }

  ghost predicate LayerInRange(s: Shared, t: Table, l: nat) {
    && Shaped(s.pool) && l < |t.layers|
    && forall i :: 0 <= i < |t.layers[l].pages| ==> t.layers[l].pages[i] < |s.pool.states|
  }

  /** One turn of the append loop: what fits into the current page. Reports the tokens written. */
  function AppendChunk(s: Shared, t: Table, l: nat, values: seq<KvEntry>): (one: Step)
    requires LayerInRange(s, t, l) && values != []
    ensures LayerInRange(one.shared, one.table, l)
    ensures one.result.Ok? ==> 0 < one.result.value <= |values|
  {
    match OpenPage(s, t, l)
    case Err(e) => Step(s, t, Err(e))
    case Ok((s1, t1)) =>
      var layer := t1.layers[l];
      if layer.pages == [] then Step(s1, t1, Err(InvalidPage))
      else
        var id := Last(layer.pages);
        var n := ChunkLength(s.pool.pageTokens, layer.count, |values|);
        assert id == layer.pages[|layer.pages| - 1];
        match WritePage(s1.pool, id, Mod(layer.count, s.pool.pageTokens), values[..n])
        case Err(e) => Step(s1, t1, Err(e))
        case Ok(p) => Step(s1.(pool := p), AddCount(t1, l, n), Ok(n))
  }

  /** Fills pages chunk by chunk. */
  function AppendChunks(s: Shared, t: Table, l: nat, values: seq<KvEntry>): Step
    requires LayerInRange(s, t, l)
    decreases |values|
  {
    if values == [] then Step(s, t, Ok(t.layers[l].count))
    else
      var one := AppendChunk(s, t, l, values);
      if one.result.Err? then one else AppendChunks(one.shared, one.table, l, values[one.result.value..])
  }

  ghost function Append(s: Shared, t: Table, l: nat, start: nat, values: seq<KvEntry>): Step
    requires SharedShaped(s) && TableShaped(s, t)
  {
    if l >= |t.layers| then Step(s, t, Err(InvalidLayer))
    else if start != t.layers[l].count then Step(s, t, Err(WrongStartPosition))
    else if values == [] then Step(s, t, Err(EmptyAppend))
    else
      var required := RequiredPages(s.pool.pageTokens, t.layers[l].count, |values|);
      var evicted := EvictUntil(s, required);
      EvictKeepsShape(s, required);
      if evicted.error.Some? then Step(evicted.shared, t, Err(evicted.error.value))
      else if required > |evicted.shared.pool.free| then
        Step(evicted.shared, t, Err(InsufficientCapacity(required, |evicted.shared.pool.free|)))
      else AppendChunks(evicted.shared, t, l, values)
  }

  lemma {:induction false} ReleaseAllKeepsShape(p: Pool, ids: seq<PageId>)
    requires Shaped(p)
    ensures var p' := ReleaseAll(p, ids).pool;
            Shaped(p') && |p'.states| == |p.states| && p'.pages == p.pages && p'.pageTokens == p.pageTokens
    decreases |ids|
  {
    if ids != [] && ReleasePage(p, ids[0]).Ok? {
      ReleaseAllKeepsShape(ReleasePage(p, ids[0]).value, ids[1..]);
    }
  }

  lemma {:induction false} EvictKeepsShape(s: Shared, required: nat)
    requires SharedShaped(s)
    ensures var s' := EvictUntil(s, required).shared;
            SharedShaped(s') && |s'.pool.states| == |s.pool.states| && s'.pool.pages == s.pool.pages &&
            s'.pool.pageTokens == s.pool.pageTokens && s'.layerCount == s.layerCount &&
            s'.enabled == s.enabled && s'.clock == s.clock
    decreases |s.trie|
  {
    if |s.pool.free| < required && s.enabled && Victim(s.trie, s.pool).Some? {
      var v := Victim(s.trie, s.pool).value;
      var released := ReleaseAll(s.pool, s.trie[v].pages);
      ReleaseAllKeepsShape(s.pool, s.trie[v].pages);
      var s' := s.(pool := released.pool, trie := s.trie - {v});
      assert s'.trie.Keys == s.trie.Keys - {v};
      if released.error.None? { EvictKeepsShape(s', required); }
    }
  }

  // ---- truncate and reset --------------------------------------------------------------------

  /** The pages each layer gives up when it keeps its first `keep` pages. */
  function TailRows(t: Table, keep: nat): seq<seq<PageId>> {
    seq(|t.layers|, l requires 0 <= l < |t.layers| =>
      if keep <= |t.layers[l].pages| then t.layers[l].pages[keep..] else [])
  }

  function CutTable(t: Table, keep: nat, target: nat): Table {
    t.(layers := seq(|t.layers|, l requires 0 <= l < |t.layers| =>
      LayerTable(if keep <= |t.layers[l].pages| then t.layers[l].pages[..keep] else t.layers[l].pages, target)))
  }

  function Truncate(s: Shared, t: Table, target: nat): Step
    requires s.pool.pageTokens > 0
  {
    if exists l :: 0 <= l < |t.layers| && target > t.layers[l].count then Step(s, t, Err(CannotTruncate))
    else
      var keep := CeilDiv(target, s.pool.pageTokens);
      var released := ReleaseAll(s.pool, Flatten(TailRows(t, keep)));
      Step(s.(pool := released.pool), CutTable(t, keep, target),
           if released.error.Some? then Err(released.error.value) else Ok(target))
  }

  /** Drops everything the request holds and returns its cursor to the root. */
  function Reset(s: Shared, t: Table): Step {
    var released := ReleaseAll(s.pool, Flatten(TailRows(t, 0)));
    Step(s.(pool := released.pool), CutTable(t, 0, 0).(path := []),
         if released.error.Some? then Err(released.error.value) else Ok(0))
  }

  // ---- publish -------------------------------------------------------------------------------

  /** The page of every layer at one block index. */
  function Column(t: Table, k: nat): (c: seq<PageId>)
    requires forall l :: 0 <= l < |t.layers| ==> k < |t.layers[l].pages|
    ensures |c| == |t.layers| && forall l :: 0 <= l < |c| ==> c[l] == t.layers[l].pages[k]
  {
    seq(|t.layers|, l requires 0 <= l < |t.layers| => t.layers[l].pages[k])
  }

  /** The entries of `a` that differ from the entry of `b` in the same place. */
  function Differing(a: seq<PageId>, b: seq<PageId>): seq<PageId>
    requires |a| == |b|
  {
    if a == [] then [] else (if a[0] != b[0] then [a[0]] else []) + Differing(a[1..], b[1..])
  }

  /** What publishing will do: the cursor's new path and where it leaves the indexed blocks. */
  ghost predicate Publishable(s: Shared, t: Table, full: Path, m: nat) {
    && |t.path| <= m <= |full| && t.path <= full
    && m == MatchFrom(s.trie, full, |t.path|)
    && (forall k :: |t.path| < k <= m ==> full[..k] in s.trie)
    && (forall l :: 0 <= l < |t.layers| ==> |full| <= |t.layers[l].pages|)
    && |t.layers| == s.layerCount
  }

  ghost function NewRows(s: Shared, t: Table, full: Path, m: nat): (rows: seq<seq<PageId>>)
    requires Publishable(s, t, full, m)
    ensures |rows| == |full| - m && forall i :: 0 <= i < |rows| ==> rows[i] == Column(t, m + i)
  {
    seq(|full| - m, i requires 0 <= i < |full| - m => Column(t, m + i))
  }

  ghost function CanonicalRows(s: Shared, t: Table, full: Path, m: nat): (rows: seq<seq<PageId>>)
    requires SharedShaped(s) && Publishable(s, t, full, m)
    ensures |rows| == m - |t.path|
  {
    var n := |t.path|;
    seq(m - n, i requires 0 <= i < m - n => Differing(s.trie[full[..n + i + 1]].pages, Column(t, n + i)))
  }

  ghost function ReplacedRows(s: Shared, t: Table, full: Path, m: nat): (rows: seq<seq<PageId>>)
    requires SharedShaped(s) && Publishable(s, t, full, m)
    ensures |rows| == m - |t.path|
  {
    var n := |t.path|;
    seq(m - n, i requires 0 <= i < m - n => Differing(Column(t, n + i), s.trie[full[..n + i + 1]].pages))
  }

  /** The tables after adopting the canonical pages and advancing the cursor. */
  ghost function PublishedTable(s: Shared, t: Table, full: Path, m: nat): (t': Table)
    requires SharedShaped(s) && Publishable(s, t, full, m)
    ensures |t'.layers| == |t.layers| && t'.path == full
    ensures forall l :: 0 <= l < |t.layers| ==>
              t'.layers[l].count == t.layers[l].count && |t'.layers[l].pages| == |t.layers[l].pages|
  {
    Table(seq(|t.layers|, l requires 0 <= l < |t.layers| =>
      LayerTable(seq(|t.layers[l].pages|, k requires 0 <= k < |t.layers[l].pages| =>
        if |t.path| <= k < m then s.trie[full[..k + 1]].pages[l] else t.layers[l].pages[k]), t.layers[l].count)), full)
  }

  ghost function Columns(t: Table, n: nat): (c: seq<seq<PageId>>)
    requires forall l :: 0 <= l < |t.layers| ==> n <= |t.layers[l].pages|
    ensures |c| == n
  {
    seq(n, k requires 0 <= k < n => Column(t, k))
  }

  ghost function Publish(s: Shared, t: Table, tokens: seq<Token>): Step
    requires SharedShaped(s) && TableShaped(s, t)
  {
    if !s.enabled then Step(s, t, Ok(0))
    else if |tokens| < CachedCount(t) then Step(s, t, Err(TooFewTokens))
    else
      var blocks := Blocks(tokens[..CachedCount(t)], s.pool.pageTokens);
      if exists l :: 0 <= l < |t.layers| && |t.layers[l].pages| < |blocks| then Step(s, t, Err(TooFewCachedPages))
      else if |t.path| > |blocks| then Step(s.(clock := s.clock + 1), t, Err(CursorBeyondSequence))
      else
        var full := t.path + blocks[|t.path|..];
        var m := MatchFrom(s.trie, full, |t.path|);
        MatchedFromIndexed(s.trie, full, |t.path|);
        if m < |full| && m > 0 && full[..m] !in s.trie then Step(s.(clock := s.clock + 1), t, Err(ParentMissing))
        else CommitPublication(s, t, full, m)
  }

  lemma {:induction false} MatchedFromIndexed(t: Trie, path: Path, k: nat)
    requires k <= |path|
    ensures forall j :: k < j <= MatchFrom(t, path, k) ==> path[..j] in t
    decreases |path| - k
  {
    if k < |path| && path[..k + 1] in t { MatchedFromIndexed(t, path, k + 1); }
  }

  /** The index after publication: matched blocks touched, the rest of the path inserted. */
  ghost function PublishedTrie(s: Shared, t: Table, full: Path, m: nat): Trie
    requires Publishable(s, t, full, m)
  {
    Insert(Touch(s.trie, full, |t.path|, m, s.clock), full, m, Columns(t, |full|), s.clock)
  }

  /** `adopted` tells whether the request's tables were already switched when an error occurred. */
  datatype PagesStep = PagesStep(pool: Pool, adopted: bool, error: Option<CacheError>)

  /** Retains the newly indexed pages, then the canonical ones, then releases the replaced ones. */
  function PublishPages(p: Pool, indexed: seq<PageId>, canonical: seq<PageId>, replaced: seq<PageId>): PagesStep {
    var first := RetainAll(p, indexed);
    if first.error.Some? then PagesStep(first.pool, false, first.error)
    else
      var second := RetainAll(first.pool, canonical);
      if second.error.Some? then PagesStep(second.pool, false, second.error)
      else
        var third := ReleaseAll(second.pool, replaced);
        PagesStep(third.pool, true, third.error)
  }

  ghost function CommitPublication(s: Shared, t: Table, full: Path, m: nat): Step
    requires SharedShaped(s) && Publishable(s, t, full, m)
  {
    var pages := PublishPages(s.pool, Flatten(NewRows(s, t, full, m)), Flatten(CanonicalRows(s, t, full, m)),
                              Flatten(ReplacedRows(s, t, full, m)));
    Step(Shared(s.enabled, s.layerCount, pages.pool, PublishedTrie(s, t, full, m), s.clock + 1),
         if pages.adopted then PublishedTable(s, t, full, m) else t,
         if pages.error.Some? then Err(pages.error.value) else Ok(NewlyIndexed(s, |full| - m)))
  }

  function NewlyIndexed(s: Shared, blockCount: nat): nat { blockCount * s.pool.pageTokens }

  // ---- Sizes never change ---------------------------------------------------------------------

  lemma {:induction false} RetainSizes(p: Pool, ids: seq<PageId>, saved: seq<(PageId, PageState)>)
    ensures |RetainFrom(p, ids, saved).pool.states| == |p.states| && RetainFrom(p, ids, saved).pool.pageTokens == p.pageTokens
    decreases |ids|
  {
    if ids != [] && RetainPage(p, ids[0]).Ok? {
      RetainSizes(RetainPage(p, ids[0]).value, ids[1..], saved + [(ids[0], p.states[ids[0]])]);
    }
  }

  lemma {:induction false} ReleaseSizes(p: Pool, ids: seq<PageId>)
    ensures |ReleaseAll(p, ids).pool.states| == |p.states| && ReleaseAll(p, ids).pool.pageTokens == p.pageTokens
    decreases |ids|
  {
    if ids != [] && ReleasePage(p, ids[0]).Ok? { ReleaseSizes(ReleasePage(p, ids[0]).value, ids[1..]); }
  }

  lemma PublishPagesSizes(p: Pool, a: seq<PageId>, b: seq<PageId>, d: seq<PageId>)
    ensures |PublishPages(p, a, b, d).pool.states| == |p.states| && PublishPages(p, a, b, d).pool.pageTokens == p.pageTokens
  {
    RetainSizes(p, a, []);
    var first := RetainAll(p, a);
    RetainSizes(first.pool, b, []);
    ReleaseSizes(RetainAll(first.pool, b).pool, d);
  }
}
