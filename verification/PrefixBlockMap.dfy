/** The hash map behind the prefix index. A block is stored under its parent's id and its own tokens,
    with a link to the parent's key and a count of its children; `Represents` says when such a map is
    the trie of block paths that `PrefixTrie` describes. */
module PrefixBlockMap {
  import opened Common
  import opened PagePool
  import opened PrefixTrie

  type BlockId = nat

  datatype BlockKey = BlockKey(parent: Option<BlockId>, tokens: Block)

  datatype IndexedBlock =
    IndexedBlock(id: BlockId, parentKey: Option<BlockKey>, pages: seq<PageId>, childCount: nat, stamp: nat)

  datatype BlockMap = BlockMap(blocks: map<BlockKey, IndexedBlock>, leaves: set<BlockKey>, nextId: BlockId)

  /** Which key stands for which path, in both directions. */
  datatype Naming = Naming(keyOf: map<Path, BlockKey>, pathOf: map<BlockKey, Path>)

  function Children(blocks: map<BlockKey, IndexedBlock>, id: BlockId): set<BlockKey> {
    set k | k in blocks && k.parent == Some(id)
  }

  function Parent(q: Path): Path
    requires q != []
  {
    q[..|q| - 1]
  }

  /** The id under which the children of a path are stored; the root has none. */
  ghost function IdOf(m: BlockMap, n: Naming, p: Path): Option<BlockId>
    requires p == [] || (p in n.keyOf && n.keyOf[p] in m.blocks)
  {
    if p == [] then None else Some(m.blocks[n.keyOf[p]].id)
  }

  ghost function KeyOption(n: Naming, p: Path): Option<BlockKey>
    requires p == [] || p in n.keyOf
  {
    if p == [] then None else Some(n.keyOf[p])
  }

  /** A named path has its key in the map, linked to the key and the id of its parent. */
  ghost predicate Linked(m: BlockMap, n: Naming, q: Path) {
    && q != [] && q in n.keyOf && n.keyOf[q] in m.blocks
    && n.keyOf[q] in n.pathOf && n.pathOf[n.keyOf[q]] == q
    && n.keyOf[q].tokens == Last(q)
    && (Parent(q) != [] ==> Parent(q) in n.keyOf && n.keyOf[Parent(q)] in m.blocks)
    && n.keyOf[q].parent == IdOf(m, n, Parent(q))
    && m.blocks[n.keyOf[q]].parentKey == KeyOption(n, Parent(q))
  }

  ghost predicate Named(n: Naming, k: BlockKey) {
    k in n.pathOf && n.pathOf[k] in n.keyOf && n.keyOf[n.pathOf[k]] == k
  }

  ghost predicate IdsFresh(m: BlockMap) {
    && (forall k :: k in m.blocks ==> m.blocks[k].id < m.nextId)
    && (forall k, k' :: k in m.blocks && k' in m.blocks && m.blocks[k].id == m.blocks[k'].id ==> k == k')
  }

  /** The count of block k; `promised` names a block whose next child is about to be inserted. */
  ghost predicate CountExact(m: BlockMap, promised: Option<BlockKey>, k: BlockKey) {
    k in m.blocks ==>
      && m.blocks[k].childCount == |Children(m.blocks, m.blocks[k].id)| + (if promised == Some(k) then 1 else 0)
      && (k in m.leaves <==> m.blocks[k].childCount == 0)
  }

  ghost predicate RepresentsWith(m: BlockMap, n: Naming, promised: Option<BlockKey>) {
    && (forall q {:trigger Linked(m, n, q)} :: q in n.keyOf ==> Linked(m, n, q))
    && (forall k {:trigger Named(n, k)} :: k in m.blocks ==> Named(n, k))
    && IdsFresh(m)
    && (forall k :: CountExact(m, promised, k))
    && m.leaves <= m.blocks.Keys
  }

  ghost predicate Represents(m: BlockMap, n: Naming) { RepresentsWith(m, n, None) }

  /** The trie a block map stands for. */
  ghost function TrieOf(m: BlockMap, n: Naming): Trie {
    map q | q in n.keyOf && n.keyOf[q] in m.blocks :: Node(m.blocks[n.keyOf[q]].pages, m.blocks[n.keyOf[q]].stamp)
  }

  // ---- What the representation says -----------------------------------------------------------

  /** The represented paths are closed under prefixes. */
  lemma RepresentedIsPrefixClosed(m: BlockMap, n: Naming, promised: Option<BlockKey>)
    requires RepresentsWith(m, n, promised)
    ensures PrefixClosed(TrieOf(m, n))
  {
    var t := TrieOf(m, n);
    forall q | q in t
      ensures q != [] && forall k :: 0 < k <= |q| ==> q[..k] in t
    {
      assert Linked(m, n, q);
      forall k | 0 < k <= |q| { PrefixNamed(m, n, promised, q, k); }
    }
  }

  lemma {:induction false} PrefixNamed(m: BlockMap, n: Naming, promised: Option<BlockKey>, q: Path, k: nat)
    requires RepresentsWith(m, n, promised) && q in n.keyOf && 0 < k <= |q|
    ensures Linked(m, n, q[..k])
    decreases |q|
  {
    if k == |q| {
      assert q[..k] == q;
      assert Linked(m, n, q);
    } else {
      assert Linked(m, n, q);
      PrefixNamed(m, n, promised, Parent(q), k);
      assert Parent(q)[..k] == q[..k];
    }
  }

  /** Looking a block up under its parent's id finds it exactly when the longer path is represented. */
  lemma LookupFindsPath(m: BlockMap, n: Naming, promised: Option<BlockKey>, p: Path, tokens: Block)
    requires RepresentsWith(m, n, promised) && (p == [] || p in n.keyOf)
    ensures p != [] ==> n.keyOf[p] in m.blocks
    ensures var key := BlockKey(IdOf(m, n, p), tokens);
            (key in m.blocks <==> p + [tokens] in n.keyOf) &&
            (p + [tokens] in n.keyOf ==> n.keyOf[p + [tokens]] == key && Named(n, key) && n.pathOf[key] == p + [tokens])
  {
    if p != [] { assert Linked(m, n, p); }
    var key, q := BlockKey(IdOf(m, n, p), tokens), p + [tokens];
    assert Parent(q) == p && Last(q) == tokens;
    if q in n.keyOf { assert Linked(m, n, q); }
    if key in m.blocks {
      assert Named(n, key);
      var u := n.pathOf[key];
      assert Linked(m, n, u);
      if Parent(u) != [] {
        assert Linked(m, n, Parent(u));
        assert n.keyOf[Parent(u)] == n.keyOf[p];
      }
      assert Parent(u) == p;
      assert u == Parent(u) + [Last(u)];
    }
  }

  lemma ChildOfPath(m: BlockMap, n: Naming, promised: Option<BlockKey>, q: Path, child: BlockKey)
    requires RepresentsWith(m, n, promised) && q in n.keyOf && Linked(m, n, q)
    requires child in Children(m.blocks, m.blocks[n.keyOf[q]].id)
    ensures exists u :: u in TrieOf(m, n) && q < u
  {
    assert Named(n, child);
    var u := n.pathOf[child];
    assert Linked(m, n, u) && Linked(m, n, Parent(u));
    assert n.keyOf[Parent(u)] == n.keyOf[q];
    assert q < u && u in TrieOf(m, n);
  }

  lemma LongerPathGivesChild(m: BlockMap, n: Naming, promised: Option<BlockKey>, q: Path, u: Path)
    requires RepresentsWith(m, n, promised) && q in n.keyOf && Linked(m, n, q) && u in n.keyOf && q < u
    ensures Children(m.blocks, m.blocks[n.keyOf[q]].id) != {}
  {
    PrefixNamed(m, n, promised, u, |q| + 1);
    var w := u[..|q| + 1];
    assert Parent(w) == q;
    assert n.keyOf[w] in Children(m.blocks, m.blocks[n.keyOf[q]].id);
  }

  /** The leaf set is the set of the represented trie's leaves. */
  lemma LeavesAreLeaves(m: BlockMap, n: Naming, q: Path)
    requires Represents(m, n) && q in n.keyOf
    ensures Linked(m, n, q) && (n.keyOf[q] in m.leaves <==> IsLeaf(TrieOf(m, n), q))
  {
    var key := n.keyOf[q];
    assert Linked(m, n, q);
    assert CountExact(m, None, key);
    var children := Children(m.blocks, m.blocks[key].id);
    if child :| child in children { ChildOfPath(m, n, None, q, child); }
    if u :| u in n.keyOf && q < u { LongerPathGivesChild(m, n, None, q, u); }
  }

  // ---- Updates --------------------------------------------------------------------------------

  function Stamped(m: BlockMap, key: BlockKey, stamp: nat): BlockMap
    requires key in m.blocks
  {
    m.(blocks := m.blocks[key := m.blocks[key].(stamp := stamp)])
  }

  /** What every change of one block's stamp or count leaves alone: which blocks there are, their ids,
      links and pages. */
  ghost predicate SameLinks(m: BlockMap, m': BlockMap) {
    && m'.blocks.Keys == m.blocks.Keys && m'.nextId == m.nextId
    && forall k :: k in m.blocks ==>
         m'.blocks[k].id == m.blocks[k].id && m'.blocks[k].parentKey == m.blocks[k].parentKey && m'.blocks[k].pages == m.blocks[k].pages
  }

  lemma SameLinksKeepNames(m: BlockMap, m': BlockMap, n: Naming, promised: Option<BlockKey>)
    requires RepresentsWith(m, n, promised) && SameLinks(m, m')
    ensures forall q {:trigger Linked(m', n, q)} :: q in n.keyOf ==> Linked(m', n, q)
    ensures forall k {:trigger Named(n, k)} :: k in m'.blocks ==> Named(n, k)
    ensures IdsFresh(m')
    ensures TrieOf(m', n).Keys == TrieOf(m, n).Keys
  {
    hide CountExact;
    forall q | q in n.keyOf ensures Linked(m', n, q) { assert Linked(m, n, q); }
  }

  lemma StampKeepsRepresentation(m: BlockMap, n: Naming, promised: Option<BlockKey>, key: BlockKey, stamp: nat)
    requires RepresentsWith(m, n, promised) && key in m.blocks
    ensures RepresentsWith(Stamped(m, key, stamp), n, promised)
    ensures Named(n, key) && Linked(m, n, n.pathOf[key])
    ensures TrieOf(Stamped(m, key, stamp), n) ==
            TrieOf(m, n)[n.pathOf[key] := TrieOf(m, n)[n.pathOf[key]].(stamp := stamp)]
  {
    var m' := Stamped(m, key, stamp);
    SameLinksKeepNames(m, m', n, promised);
    assert Named(n, key);
    assert Linked(m, n, n.pathOf[key]);
    forall k ensures CountExact(m', promised, k) { StampedCount(m, n, promised, key, stamp, k); }
    RepresentsFromParts(m', n, promised);
    StampedTrie(m, n, promised, key, stamp);
  }

  lemma StampedCount(m: BlockMap, n: Naming, promised: Option<BlockKey>, key: BlockKey, stamp: nat, k: BlockKey)
    requires RepresentsWith(m, n, promised) && key in m.blocks
    ensures CountExact(Stamped(m, key, stamp), promised, k)
  {
    hide Linked, Named, IdsFresh;
    assert CountExact(m, promised, k);
    if k in m.blocks { assert Children(Stamped(m, key, stamp).blocks, m.blocks[k].id) == Children(m.blocks, m.blocks[k].id); }
  }

  lemma StampedTrie(m: BlockMap, n: Naming, promised: Option<BlockKey>, key: BlockKey, stamp: nat)
    requires RepresentsWith(m, n, promised) && key in m.blocks
    ensures Named(n, key) && Linked(m, n, n.pathOf[key])
    ensures TrieOf(Stamped(m, key, stamp), n) ==
            TrieOf(m, n)[n.pathOf[key] := TrieOf(m, n)[n.pathOf[key]].(stamp := stamp)]
  {
    hide CountExact, IdsFresh;
    assert Named(n, key);
    assert Linked(m, n, n.pathOf[key]);
    forall q | q in n.keyOf && q != n.pathOf[key] ensures n.keyOf[q] != key { assert Linked(m, n, q); }
  }

  /** `increment_block_child_count`: a parent promises its next child and is no leaf any more. */
  function Promised(m: BlockMap, key: BlockKey): BlockMap
    requires key in m.blocks
  {
    m.(blocks := m.blocks[key := m.blocks[key].(childCount := m.blocks[key].childCount + 1)], leaves := m.leaves - {key})
  }

  lemma PromiseKeepsRepresentation(m: BlockMap, n: Naming, key: BlockKey)
    requires Represents(m, n) && key in m.blocks
    ensures RepresentsWith(Promised(m, key), n, Some(key))
    ensures TrieOf(Promised(m, key), n) == TrieOf(m, n) && SameLinks(m, Promised(m, key))
  {
    var m' := Promised(m, key);
    SameLinksKeepNames(m, m', n, None);
    forall k ensures CountExact(m', Some(key), k) { PromisedCount(m, n, key, k); }
    RepresentsFromParts(m', n, Some(key));
  }

  lemma PromisedCount(m: BlockMap, n: Naming, key: BlockKey, k: BlockKey)
    requires Represents(m, n) && key in m.blocks
    ensures CountExact(Promised(m, key), Some(key), k)
  {
    hide Linked, Named, IdsFresh;
    assert CountExact(m, None, k);
    if k in m.blocks { assert Children(Promised(m, key).blocks, m.blocks[k].id) == Children(m.blocks, m.blocks[k].id); }
  }

  /** Inserts a block below path p; with `hasChild` it promises a child of its own. */
  ghost function Inserted(m: BlockMap, n: Naming, p: Path, tokens: Block, pages: seq<PageId>, hasChild: bool, stamp: nat): BlockMap
    requires p == [] || (p in n.keyOf && n.keyOf[p] in m.blocks)
  {
    var key := BlockKey(IdOf(m, n, p), tokens);
    BlockMap(m.blocks[key := IndexedBlock(m.nextId, KeyOption(n, p), pages, if hasChild then 1 else 0, stamp)],
             if hasChild then m.leaves else m.leaves + {key}, m.nextId + 1)
  }

  ghost function WithName(n: Naming, q: Path, key: BlockKey): Naming {
    Naming(n.keyOf[q := key], n.pathOf[key := q])
  }

  lemma InsertKeepsRepresentation(m: BlockMap, n: Naming, p: Path, tokens: Block, pages: seq<PageId>, hasChild: bool, stamp: nat)
    requires (p == [] || p in n.keyOf) && RepresentsWith(m, n, KeyOption(n, p))
    requires p + [tokens] !in n.keyOf
    ensures p != [] ==> n.keyOf[p] in m.blocks
    ensures var key := BlockKey(IdOf(m, n, p), tokens);
            var m' := Inserted(m, n, p, tokens, pages, hasChild, stamp);
            var n' := WithName(n, p + [tokens], key);
            && key !in m.blocks
            && RepresentsWith(m', n', if hasChild then Some(key) else None)
            && TrieOf(m', n') == TrieOf(m, n)[p + [tokens] := Node(pages, stamp)]
  {
    LookupFindsPath(m, n, KeyOption(n, p), p, tokens);
    InsertedTrie(m, n, p, tokens, pages, hasChild, stamp);
    InsertedRepresents(m, n, p, tokens, pages, hasChild, stamp);
  }

  lemma InsertedRepresents(m: BlockMap, n: Naming, p: Path, tokens: Block, pages: seq<PageId>, hasChild: bool, stamp: nat)
    requires (p == [] || (p in n.keyOf && n.keyOf[p] in m.blocks)) && RepresentsWith(m, n, KeyOption(n, p))
    requires p + [tokens] !in n.keyOf && BlockKey(IdOf(m, n, p), tokens) !in m.blocks
    ensures var key := BlockKey(IdOf(m, n, p), tokens);
            RepresentsWith(Inserted(m, n, p, tokens, pages, hasChild, stamp), WithName(n, p + [tokens], key),
                           if hasChild then Some(key) else None)
  {
    var key, q := BlockKey(IdOf(m, n, p), tokens), p + [tokens];
    var m', n' := Inserted(m, n, p, tokens, pages, hasChild, stamp), WithName(n, q, key);
    var promised := if hasChild then Some(key) else None;
    InsertedShape(m, n, p, tokens, pages, hasChild, stamp);
    hide Linked, CountExact, IdsFresh, Named, Inserted, WithName, IdOf, KeyOption, RepresentsWith;
    forall u ensures u in n'.keyOf ==> Linked(m', n', u) {
      if u in n'.keyOf { InsertedLinked(m, n, p, tokens, pages, hasChild, stamp, u); }
    }
    forall k ensures k in m'.blocks ==> Named(n', k) { if k in m'.blocks { InsertedNamed(m, n, p, tokens, k); } }
    forall k ensures CountExact(m', promised, k) { InsertedCount(m, n, p, tokens, pages, hasChild, stamp, k); }
    RepresentsFromParts(m', n', promised);
  }

  lemma InsertedShape(m: BlockMap, n: Naming, p: Path, tokens: Block, pages: seq<PageId>, hasChild: bool, stamp: nat)
    requires (p == [] || (p in n.keyOf && n.keyOf[p] in m.blocks)) && RepresentsWith(m, n, KeyOption(n, p))
    ensures p != [] ==> n.keyOf[p] in m.blocks
    ensures var m' := Inserted(m, n, p, tokens, pages, hasChild, stamp);
            IdsFresh(m') && m'.leaves <= m'.blocks.Keys && m'.blocks.Keys == m.blocks.Keys + {BlockKey(IdOf(m, n, p), tokens)}
    ensures WithName(n, p + [tokens], BlockKey(IdOf(m, n, p), tokens)).keyOf.Keys == n.keyOf.Keys + {p + [tokens]}
  {
  }

  lemma InsertedLinked(m: BlockMap, n: Naming, p: Path, tokens: Block, pages: seq<PageId>, hasChild: bool, stamp: nat, u: Path)
    requires (p == [] || (p in n.keyOf && n.keyOf[p] in m.blocks)) && RepresentsWith(m, n, KeyOption(n, p))
    requires BlockKey(IdOf(m, n, p), tokens) !in m.blocks
    requires u in n.keyOf || u == p + [tokens]
    ensures Linked(Inserted(m, n, p, tokens, pages, hasChild, stamp),
                   WithName(n, p + [tokens], BlockKey(IdOf(m, n, p), tokens)), u)
  {
    hide CountExact, IdsFresh;
    assert Parent(p + [tokens]) == p && Last(p + [tokens]) == tokens;
    if u != p + [tokens] { assert Linked(m, n, u); }
    LookupFindsPath(m, n, KeyOption(n, p), p, tokens);
  }

  lemma InsertedNamed(m: BlockMap, n: Naming, p: Path, tokens: Block, k: BlockKey)
    requires (p == [] || (p in n.keyOf && n.keyOf[p] in m.blocks)) && RepresentsWith(m, n, KeyOption(n, p))
    requires p + [tokens] !in n.keyOf
    requires k in m.blocks || k == BlockKey(IdOf(m, n, p), tokens)
    ensures Named(WithName(n, p + [tokens], BlockKey(IdOf(m, n, p), tokens)), k)
  {
    hide CountExact, IdsFresh, Linked;
    LookupFindsPath(m, n, KeyOption(n, p), p, tokens);
    if k in m.blocks { assert Named(n, k); }
  }

  lemma InsertedTrie(m: BlockMap, n: Naming, p: Path, tokens: Block, pages: seq<PageId>, hasChild: bool, stamp: nat)
    requires (p == [] || (p in n.keyOf && n.keyOf[p] in m.blocks)) && RepresentsWith(m, n, KeyOption(n, p))
    requires BlockKey(IdOf(m, n, p), tokens) !in m.blocks
    ensures TrieOf(Inserted(m, n, p, tokens, pages, hasChild, stamp),
                   WithName(n, p + [tokens], BlockKey(IdOf(m, n, p), tokens))) ==
            TrieOf(m, n)[p + [tokens] := Node(pages, stamp)]
  {
    hide CountExact, IdsFresh;
    forall u | u in n.keyOf ensures n.keyOf[u] in m.blocks && n.keyOf[u] != BlockKey(IdOf(m, n, p), tokens) {
      assert Linked(m, n, u);
    }
  }

  lemma InsertedCount(m: BlockMap, n: Naming, p: Path, tokens: Block, pages: seq<PageId>, hasChild: bool, stamp: nat, k: BlockKey)
    requires (p == [] || (p in n.keyOf && n.keyOf[p] in m.blocks)) && RepresentsWith(m, n, KeyOption(n, p))
    requires BlockKey(IdOf(m, n, p), tokens) !in m.blocks
    ensures var key := BlockKey(IdOf(m, n, p), tokens);
            CountExact(Inserted(m, n, p, tokens, pages, hasChild, stamp), if hasChild then Some(key) else None, k)
  {
    var key := BlockKey(IdOf(m, n, p), tokens);
    var m' := Inserted(m, n, p, tokens, pages, hasChild, stamp);
    assert CountExact(m, KeyOption(n, p), k);
    if k == key {
      NoChildrenYet(m, n, KeyOption(n, p));
      assert Children(m'.blocks, m.nextId) == {} by { assert key.parent != Some(m.nextId); }
    } else if k in m.blocks {
      var id := m.blocks[k].id;
      ChildrenGrow(m.blocks, key, m'.blocks[key], id);
      if key.parent == Some(id) { SameIdSameKey(m, n, KeyOption(n, p), k, n.keyOf[p]); }
    }
    hide Children, Named, Linked, IdsFresh;
  }

  /** Nobody has the next id for a parent. */
  lemma NoChildrenYet(m: BlockMap, n: Naming, promised: Option<BlockKey>)
    requires RepresentsWith(m, n, promised)
    ensures forall c :: c in m.blocks ==> c.parent != Some(m.nextId)
  {
    forall c | c in m.blocks ensures c.parent != Some(m.nextId) {
      assert Named(n, c) && Linked(m, n, n.pathOf[c]);
    }
  }

  lemma SameIdSameKey(m: BlockMap, n: Naming, promised: Option<BlockKey>, a: BlockKey, b: BlockKey)
    requires RepresentsWith(m, n, promised) && a in m.blocks && b in m.blocks && m.blocks[a].id == m.blocks[b].id
    ensures a == b
  {
    hide Named, Linked, CountExact;
  }

  lemma ChildrenGrow(blocks: map<BlockKey, IndexedBlock>, key: BlockKey, block: IndexedBlock, id: BlockId)
    requires key !in blocks
    ensures Children(blocks[key := block], id) == Children(blocks, id) + (if key.parent == Some(id) then {key} else {})
    ensures key !in Children(blocks, id)
  {
  }

  /** `evict`: removes a leaf and gives its parent one child less, which may make it a leaf. */
  function BlockRemoved(m: BlockMap, key: BlockKey): BlockMap
    requires key in m.blocks
    requires m.blocks[key].parentKey.Some? ==>
               m.blocks[key].parentKey.value in m.blocks && m.blocks[key].parentKey.value != key &&
               m.blocks[m.blocks[key].parentKey.value].childCount > 0
  {
    var blocks := m.blocks - {key};
    match m.blocks[key].parentKey
    case None => m.(blocks := blocks, leaves := m.leaves - {key})
    case Some(above) =>
      var fewer := blocks[above].childCount - 1;
      BlockMap(blocks[above := blocks[above].(childCount := fewer)],
               if fewer == 0 then m.leaves - {key} + {above} else m.leaves - {key}, m.nextId)
  }

  ghost function WithoutName(n: Naming, q: Path, key: BlockKey): Naming {
    Naming(n.keyOf - {q}, n.pathOf - {key})
  }

  lemma LeafParentHasChild(m: BlockMap, n: Naming, q: Path)
    requires Represents(m, n) && q in n.keyOf
    ensures Linked(m, n, q)
    ensures Parent(q) != [] ==>
              var above := n.keyOf[Parent(q)];
              above in m.blocks && m.blocks[n.keyOf[q]].parentKey == Some(above) && above != n.keyOf[q] && m.blocks[above].childCount > 0
    ensures Parent(q) == [] ==> m.blocks[n.keyOf[q]].parentKey == None
  {
    assert Linked(m, n, q);
    if Parent(q) != [] {
      var above := n.keyOf[Parent(q)];
      assert Linked(m, n, Parent(q));
      assert CountExact(m, None, above);
      assert n.keyOf[q] in Children(m.blocks, m.blocks[above].id);
    }
  }

  lemma RemoveKeepsRepresentation(m: BlockMap, n: Naming, q: Path)
    requires Represents(m, n) && q in n.keyOf && n.keyOf[q] in m.leaves
    ensures Removable(m, n, q)
    ensures var key := n.keyOf[q];
            && Represents(BlockRemoved(m, key), WithoutName(n, q, key))
            && TrieOf(BlockRemoved(m, key), WithoutName(n, q, key)) == TrieOf(m, n) - {q}
  {
    LeafParentHasChild(m, n, q);
    RemovedTrie(m, n, q);
    RemovedRepresents(m, n, q);
  }

  lemma RemovedRepresents(m: BlockMap, n: Naming, q: Path)
    requires Removable(m, n, q)
    ensures Represents(BlockRemoved(m, n.keyOf[q]), WithoutName(n, q, n.keyOf[q]))
  {
    var m', n' := BlockRemoved(m, n.keyOf[q]), WithoutName(n, q, n.keyOf[q]);
    RemovedShape(m, n, q);
    hide Linked, CountExact, IdsFresh, Named, BlockRemoved, WithoutName, Represents, RepresentsWith;
    forall u ensures u in n'.keyOf ==> Linked(m', n', u) { if u in n'.keyOf { RemovedLinked(m, n, q, u); } }
    forall k ensures k in m'.blocks ==> Named(n', k) { if k in m'.blocks { RemovedNamed(m, n, q, k); } }
    forall k ensures CountExact(m', None, k) { RemovedCount(m, n, q, k); }
    RepresentsFromParts(m', n', None);
  }

  lemma RepresentsFromParts(m: BlockMap, n: Naming, promised: Option<BlockKey>)
    requires forall q {:trigger Linked(m, n, q)} :: q in n.keyOf ==> Linked(m, n, q)
    requires forall k {:trigger Named(n, k)} :: k in m.blocks ==> Named(n, k)
    requires forall k :: CountExact(m, promised, k)
    requires IdsFresh(m) && m.leaves <= m.blocks.Keys
    ensures RepresentsWith(m, n, promised) && (promised == None ==> Represents(m, n))
  {
    hide Linked, Named, CountExact, IdsFresh;
  }

  /** The leaf of q can be taken out: its parent, if it has one, counts it. */
  ghost predicate Removable(m: BlockMap, n: Naming, q: Path) {
    && Represents(m, n) && q in n.keyOf && n.keyOf[q] in m.leaves && n.keyOf[q] in m.blocks && Linked(m, n, q)
    && var key := n.keyOf[q];
       (m.blocks[key].parentKey.Some? ==>
          m.blocks[key].parentKey.value in m.blocks && m.blocks[key].parentKey.value != key &&
          m.blocks[m.blocks[key].parentKey.value].childCount > 0)
  }

  lemma RemovedShape(m: BlockMap, n: Naming, q: Path)
    requires Removable(m, n, q)
    ensures var m' := BlockRemoved(m, n.keyOf[q]);
            m'.leaves <= m'.blocks.Keys && IdsFresh(m') && m'.blocks.Keys == m.blocks.Keys - {n.keyOf[q]}
    ensures WithoutName(n, q, n.keyOf[q]).keyOf.Keys == n.keyOf.Keys - {q}
  {
    hide Linked, CountExact, Named, Children;
  }

  lemma RemovedNamed(m: BlockMap, n: Naming, q: Path, k: BlockKey)
    requires Removable(m, n, q) && k in BlockRemoved(m, n.keyOf[q]).blocks
    ensures Named(WithoutName(n, q, n.keyOf[q]), k)
  {
    hide CountExact, Children, IdsFresh;
    assert Named(n, k);
  }

  lemma RemovedTrie(m: BlockMap, n: Naming, q: Path)
    requires Removable(m, n, q)
    ensures TrieOf(BlockRemoved(m, n.keyOf[q]), WithoutName(n, q, n.keyOf[q])) == TrieOf(m, n) - {q}
  {
    hide CountExact, Children, IdsFresh;
    forall u | u in n.keyOf && u != q ensures n.keyOf[u] in m.blocks && n.keyOf[u] != n.keyOf[q] {
      assert Linked(m, n, u);
    }
  }

  lemma RemovedLinked(m: BlockMap, n: Naming, q: Path, u: Path)
    requires Removable(m, n, q) && u in n.keyOf && u != q
    ensures n.keyOf[u] != n.keyOf[q]
    ensures Linked(BlockRemoved(m, n.keyOf[q]), WithoutName(n, q, n.keyOf[q]), u)
  {
    LeavesAreLeaves(m, n, q);
    hide CountExact, IdsFresh;
    assert Linked(m, n, u) && Linked(m, n, q);
    assert u in TrieOf(m, n) && Parent(u) < u;
    assert Parent(u) != q;
    if Parent(u) != [] { assert Linked(m, n, Parent(u)); }
  }

  lemma RemovedCount(m: BlockMap, n: Naming, q: Path, k: BlockKey)
    requires Removable(m, n, q)
    ensures CountExact(BlockRemoved(m, n.keyOf[q]), None, k)
  {
    var key := n.keyOf[q];
    var m' := BlockRemoved(m, key);
    assert CountExact(m, None, k);
    if k in m.blocks && k != key {
      var id := m.blocks[k].id;
      if key.parent == Some(id) {
        assert k == n.keyOf[Parent(q)];
        assert Children(m.blocks, id) == Children(m'.blocks, id) + {key};
        assert key !in Children(m'.blocks, id);
      } else {
        assert Children(m'.blocks, id) == Children(m.blocks, id);
      }
    }
  }
}
