/** One request's block tables and publication cursor, as the object the cache mutates. */
module RequestCacheStateObject {
  import opened Common
  import opened Arithmetic
  import opened CacheErrors
  import opened PagePool
  import opened PrefixTrie
  import opened PagedCacheSpec
  import opened PrefixIndexObject

  /** Every replacement names an existing table entry. */
  ghost predicate InTables(layers: seq<LayerTable>, replacements: seq<Replacement>) {
    forall i :: 0 <= i < |replacements| ==>
      replacements[i].layer < |layers| && replacements[i].block < |layers[replacements[i].layer].pages|
  }

  function Swapped(layers: seq<LayerTable>, x: Replacement): (r: seq<LayerTable>)
    requires x.layer < |layers| && x.block < |layers[x.layer].pages|
    ensures |r| == |layers|
    ensures forall l :: 0 <= l < |layers| ==> |r[l].pages| == |layers[l].pages| && r[l].count == layers[l].count
  {
    layers[x.layer := layers[x.layer].(pages := layers[x.layer].pages[x.block := x.page])]
  }

  /** The tables after the replacements, and the pages they took out, in order. */
  ghost function Adopted(layers: seq<LayerTable>, replacements: seq<Replacement>): (r: seq<LayerTable>)
    requires InTables(layers, replacements)
    ensures |r| == |layers|
    ensures forall l :: 0 <= l < |layers| ==> |r[l].pages| == |layers[l].pages| && r[l].count == layers[l].count
    decreases |replacements|
  {
    if replacements == [] then layers
    else
      var init := replacements[..|replacements| - 1];
      assert Last(replacements) == replacements[|replacements| - 1];
      Swapped(Adopted(layers, init), Last(replacements))
  }

  ghost function TakenOut(layers: seq<LayerTable>, replacements: seq<Replacement>): (r: seq<PageId>)
    requires InTables(layers, replacements)
    decreases |replacements|
  {
    if replacements == [] then []
    else
      var init := replacements[..|replacements| - 1];
      assert Last(replacements) == replacements[|replacements| - 1];
      TakenOut(layers, init) + [Adopted(layers, init)[Last(replacements).layer].pages[Last(replacements).block]]
  }

  class RequestPagedCacheState {
    /** The request this state belongs to; two requests never share a state object. */
    ghost const owner: RequestId
    const pageTokens: nat
    var layers: seq<LayerTable>
    var cursor: Cursor
    ghost var path: Path

    ghost function Value(): Table
      reads this
    {
      Table(layers, path)
    }

    constructor (layerCount: nat, tokensPerPage: nat, ghost request: RequestId)
      ensures Value() == EmptyTable(layerCount) && cursor == ROOT && pageTokens == tokensPerPage && owner == request
    {
      owner := request;
      pageTokens := tokensPerPage;
      layers := seq(layerCount, _ => LayerTable([], 0));
      cursor, path := ROOT, [];
    }

    /** Installs the restored rows; layers without a row keep what they have. */
    method AttachCachedPrefix(rows: seq<seq<PageId>>, restored: Cursor, ghost p: Path)
      modifies this
      ensures cursor == restored && path == p && |layers| == |old(layers)|
      ensures forall l :: 0 <= l < |layers| ==>
                layers[l] == if l < |rows| then LayerTable(rows[l], restored.tokenCount) else old(layers)[l]
    {
      for l := 0 to |layers|
        invariant |layers| == |old(layers)|
        invariant forall m :: 0 <= m < |layers| ==>
                    layers[m] == if m < l && m < |rows| then LayerTable(rows[m], restored.tokenCount) else old(layers)[m]
      {
        if l < |rows| { layers := layers[l := LayerTable(rows[l], restored.tokenCount)]; }
      }
      cursor, path := restored, p;
    }

    /** Cuts every layer to its first `keep` pages and hands back the rest, layer by layer. */
    method TruncateUnchecked(keep: nat, target: nat) returns (released: seq<PageId>)
      modifies this`layers
      ensures Value() == CutTable(old(Value()), keep, target)
      ensures released == Flatten(TailRows(old(Value()), keep))
    {
      released := [];
      ghost var t := Value();
      for l := 0 to |layers|
        invariant |layers| == |t.layers|
        invariant forall m :: 0 <= m < |layers| ==> layers[m] == if m < l then CutTable(t, keep, target).layers[m] else t.layers[m]
        invariant released == Flatten(TailRows(t, keep)[..l])
      {
        var table := layers[l];
        var tail := if keep <= |table.pages| then table.pages[keep..] else [];
        var kept := if keep <= |table.pages| then table.pages[..keep] else table.pages;
        FlattenSnoc(TailRows(t, keep)[..l], TailRows(t, keep)[l]);
        assert TailRows(t, keep)[..l + 1] == TailRows(t, keep)[..l] + [TailRows(t, keep)[l]];
        released := released + tail;
        layers := layers[l := LayerTable(kept, target)];
      }
      assert TailRows(t, keep)[..|layers|] == TailRows(t, keep);
      assert layers == CutTable(t, keep, target).layers;
    }

    /** Truncates every layer, or refuses when some layer holds fewer tokens. */
    method Truncate(target: nat) returns (r: Result<seq<PageId>>)
      requires pageTokens > 0
      modifies this`layers
      ensures if exists l :: 0 <= l < |old(layers)| && target > old(layers)[l].count then
                r == Err(CannotTruncate) && Value() == old(Value())
              else
                var keep := CeilDiv(target, pageTokens);
                r == Ok(Flatten(TailRows(old(Value()), keep))) && Value() == CutTable(old(Value()), keep, target)
    {
      for l := 0 to |layers|
        invariant forall m :: 0 <= m < l ==> target <= layers[m].count
      {
        if target > layers[l].count { return Err(CannotTruncate); }
      }
      var released := TruncateUnchecked(CeilDiv(target, pageTokens), target);
      r := Ok(released);
    }

    method AppendPage(l: nat, id: PageId)
      requires l < |layers|
      modifies this`layers
      ensures Value() == PushPage(old(Value()), l, id)
    {
      layers := layers[l := layers[l].(pages := layers[l].pages + [id])];
    }

    method RecordAppendedTokens(l: nat, n: nat)
      requires l < |layers|
      modifies this`layers
      ensures Value() == AddCount(old(Value()), l, n)
    {
      layers := layers[l := layers[l].(count := layers[l].count + n)];
    }

    /** Adopts the canonical pages entry by entry, moves the cursor and hands back the replaced pages. */
    method RecordPrefixPublication(done: Indexing, ghost p: Path) returns (replaced: seq<PageId>)
      requires InTables(layers, done.replacements)
      modifies this
      ensures layers == Adopted(old(layers), done.replacements) && cursor == done.cursor && path == p
      ensures replaced == TakenOut(old(layers), done.replacements)
    {
      replaced := [];
      ghost var start := layers;
      var all := done.replacements;
      assert all[..0] == [];
      for i := 0 to |all|
        invariant InTables(start, all) && InTables(start, all[..i])
        invariant layers == Adopted(start, all[..i]) && replaced == TakenOut(start, all[..i])
      {
        var x := all[i];
        assert all[..i + 1][..i] == all[..i] && Last(all[..i + 1]) == x;
        replaced := replaced + [layers[x.layer].pages[x.block]];
        layers := layers[x.layer := layers[x.layer].(pages := layers[x.layer].pages[x.block := x.page])];
      }
      assert all[..|all|] == all;
      cursor, path := done.cursor, p;
    }

    /** Forgets everything and hands back all pages. */
    method Reset() returns (released: seq<PageId>)
      modifies this
      ensures Value() == CutTable(old(Value()), 0, 0).(path := []) && cursor == ROOT
      ensures released == Flatten(TailRows(old(Value()), 0))
    {
      cursor := ROOT;
      released := TruncateUnchecked(0, 0);
      path := [];
    }
  }

  // ---- The replacements of one indexing walk are a publication ---------------------------------

  lemma AdoptedSnoc(layers: seq<LayerTable>, init: seq<Replacement>, x: Replacement)
    requires InTables(layers, init) && x.layer < |layers| && x.block < |layers[x.layer].pages|
    ensures InTables(layers, init + [x])
    ensures Adopted(layers, init + [x]) == Swapped(Adopted(layers, init), x)
    ensures TakenOut(layers, init + [x]) == TakenOut(layers, init) + [Adopted(layers, init)[x.layer].pages[x.block]]
  {
    assert (init + [x])[..|init + [x]| - 1] == init && Last(init + [x]) == x;
  }

  lemma {:induction false} AdoptedConcat(layers: seq<LayerTable>, a: seq<Replacement>, b: seq<Replacement>)
    requires InTables(layers, a) && InTables(layers, b)
    ensures InTables(layers, a + b) && InTables(Adopted(layers, a), b)
    ensures Adopted(layers, a + b) == Adopted(Adopted(layers, a), b)
    ensures TakenOut(layers, a + b) == TakenOut(layers, a) + TakenOut(Adopted(layers, a), b)
    decreases |b|
  {
    if b == [] {
      assert a + b == a;
    } else {
      hide Adopted, TakenOut;
      var init, x := b[..|b| - 1], b[|b| - 1];
      assert b == init + [x] && a + b == (a + init) + [x];
      AdoptedConcat(layers, a, init);
      AdoptedSnoc(layers, a + init, x);
      AdoptedSnoc(Adopted(layers, a), init, x);
      ConcatAssociates(TakenOut(layers, a), TakenOut(Adopted(layers, a), init), [Adopted(Adopted(layers, a), init)[x.layer].pages[x.block]]);
    }
  }

  lemma ConcatAssociates<T>(a: seq<T>, b: seq<T>, c: seq<T>)
    ensures (a + b) + c == a + (b + c)
  {
  }

  /** The tables with the entries of one block replaced in the first n layers. */
  ghost function BlockReplaced(layers: seq<LayerTable>, block: nat, pages: seq<PageId>, n: nat): (r: seq<LayerTable>)
    requires |pages| == |layers| && n <= |layers| && forall l :: 0 <= l < |layers| ==> block < |layers[l].pages|
    ensures |r| == |layers|
  {
    seq(|layers|, l requires 0 <= l < |layers| =>
      if l < n then layers[l].(pages := layers[l].pages[block := pages[l]]) else layers[l])
  }

  lemma BlockReplacedStep(layers: seq<LayerTable>, block: nat, pages: seq<PageId>, n: nat)
    requires |pages| == |layers| && n < |layers| && forall l :: 0 <= l < |layers| ==> block < |layers[l].pages|
    ensures var now, after := BlockReplaced(layers, block, pages, n), BlockReplaced(layers, block, pages, n + 1);
            && block < |now[n].pages| && now[n].pages[block] == layers[n].pages[block]
            && Swapped(now, Replacement(n, block, pages[n])) == after
            && (pages[n] == layers[n].pages[block] ==> now == after)
  {
    var now, after := BlockReplaced(layers, block, pages, n), BlockReplaced(layers, block, pages, n + 1);
    assert now[n] == layers[n];
    if pages[n] == layers[n].pages[block] {
      assert layers[n].pages[block := pages[n]] == layers[n].pages;
      assert layers[n].(pages := layers[n].pages) == layers[n];
    }
  }

  lemma {:induction false} DifferencesAdopted(layers: seq<LayerTable>, block: nat, pages: seq<PageId>, own: seq<PageId>, n: nat)
    requires |pages| == |layers| == |own| && n <= |layers| && forall l :: 0 <= l < |layers| ==> block < |layers[l].pages|
    requires forall l :: 0 <= l < |layers| ==> own[l] == layers[l].pages[block]
    ensures InTables(layers, DifferencesUpTo(pages, own, block, n))
    ensures Adopted(layers, DifferencesUpTo(pages, own, block, n)) == BlockReplaced(layers, block, pages, n)
    ensures TakenOut(layers, DifferencesUpTo(pages, own, block, n)) == Differing(own[..n], pages[..n])
    decreases n
  {
    hide Adopted, TakenOut, BlockReplaced, Differing, Swapped;
    if n == 0 {
      NoDifferences(layers, block, pages, own);
    } else {
      DifferencesAdopted(layers, block, pages, own, n - 1);
      DifferencesStep(layers, block, pages, own, n - 1);
    }
  }

  lemma NoDifferences(layers: seq<LayerTable>, block: nat, pages: seq<PageId>, own: seq<PageId>)
    requires |pages| == |layers| == |own| && forall l :: 0 <= l < |layers| ==> block < |layers[l].pages|
    ensures Adopted(layers, []) == BlockReplaced(layers, block, pages, 0)
    ensures TakenOut(layers, []) == Differing(own[..0], pages[..0])
  {
    assert own[..0] == [];
  }

  lemma DifferencesStep(layers: seq<LayerTable>, block: nat, pages: seq<PageId>, own: seq<PageId>, n: nat)
    requires |pages| == |layers| == |own| && n < |layers| && forall l :: 0 <= l < |layers| ==> block < |layers[l].pages|
    requires forall l :: 0 <= l < |layers| ==> own[l] == layers[l].pages[block]
    requires InTables(layers, DifferencesUpTo(pages, own, block, n))
    requires Adopted(layers, DifferencesUpTo(pages, own, block, n)) == BlockReplaced(layers, block, pages, n)
    requires TakenOut(layers, DifferencesUpTo(pages, own, block, n)) == Differing(own[..n], pages[..n])
    ensures InTables(layers, DifferencesUpTo(pages, own, block, n + 1))
    ensures Adopted(layers, DifferencesUpTo(pages, own, block, n + 1)) == BlockReplaced(layers, block, pages, n + 1)
    ensures TakenOut(layers, DifferencesUpTo(pages, own, block, n + 1)) == Differing(own[..n + 1], pages[..n + 1])
  {
    hide Adopted, TakenOut, BlockReplaced, Differing, Swapped, InTables;
    DifferingPrefix(own, pages, n);
    BlockReplacedStep(layers, block, pages, n);
    var before := DifferencesUpTo(pages, own, block, n);
    if pages[n] != own[n] {
      AdoptedSnoc(layers, before, Replacement(n, block, pages[n]));
    } else {
      assert before + [] == before;
    }
  }

  /** The request's tables after adopting the indexed pages of blocks n up to k. */
  ghost function PartlyPublished(s: Shared, t: Table, full: Path, m: nat, k: nat): (r: seq<LayerTable>)
    requires SharedShaped(s) && Publishable(s, t, full, m) && |t.path| <= k <= m
    ensures |r| == |t.layers|
    ensures forall l :: 0 <= l < |r| ==> |r[l].pages| == |t.layers[l].pages| && r[l].count == t.layers[l].count
  {
    seq(|t.layers|, l requires 0 <= l < |t.layers| =>
      LayerTable(seq(|t.layers[l].pages|, j requires 0 <= j < |t.layers[l].pages| =>
        if |t.path| <= j < k then s.trie[full[..j + 1]].pages[l] else t.layers[l].pages[j]), t.layers[l].count))
  }

  /** One more block of the walk: its differences are exactly the entries that publication changes. */
  lemma NextBlockPublished(s: Shared, t: Table, full: Path, m: nat, k: nat)
    requires SharedShaped(s) && Publishable(s, t, full, m) && |t.path| <= k < m
    ensures full[..k + 1] in s.trie
    ensures var canonical, own := s.trie[full[..k + 1]].pages, Column(t, k);
            var now := PartlyPublished(s, t, full, m, k);
            && |canonical| == |own| == |t.layers|
            && InTables(now, DifferencesUpTo(canonical, own, k, |own|))
            && Adopted(now, DifferencesUpTo(canonical, own, k, |own|)) == PartlyPublished(s, t, full, m, k + 1)
            && TakenOut(now, DifferencesUpTo(canonical, own, k, |own|)) == Differing(own, canonical)
  {
    var canonical, own := s.trie[full[..k + 1]].pages, Column(t, k);
    var now := PartlyPublished(s, t, full, m, k);
    BlockPublished(s, t, full, m, k);
    hide Adopted, TakenOut, BlockReplaced, Differing, PartlyPublished;
    DifferencesAdopted(now, k, canonical, own, |own|);
    assert own[..|own|] == own && canonical[..|own|] == canonical;
  }

  lemma BlockPublished(s: Shared, t: Table, full: Path, m: nat, k: nat)
    requires SharedShaped(s) && Publishable(s, t, full, m) && |t.path| <= k < m
    ensures full[..k + 1] in s.trie && |s.trie[full[..k + 1]].pages| == |t.layers|
    ensures var now := PartlyPublished(s, t, full, m, k);
            && (forall l :: 0 <= l < |now| ==> k < |now[l].pages| && Column(t, k)[l] == now[l].pages[k])
            && BlockReplaced(now, k, s.trie[full[..k + 1]].pages, |now|) == PartlyPublished(s, t, full, m, k + 1)
  {
    var now, after := PartlyPublished(s, t, full, m, k), PartlyPublished(s, t, full, m, k + 1);
    var canonical := s.trie[full[..k + 1]].pages;
    forall l | 0 <= l < |t.layers| ensures BlockReplaced(now, k, canonical, |now|)[l] == after[l] {
      assert now[l].pages[k := canonical[l]] == after[l].pages;
    }
  }

  /** The differences of a whole walk, adopted in order, are the publication of the request's table. */
  lemma {:induction false} WalkPublishes(s: Shared, t: Table, full: Path, m: nat, k: nat)
    requires SharedShaped(s) && Publishable(s, t, full, m) && |t.path| <= k <= m
    ensures WalkPublished(s, t, full, m, k, AllDifferences(s.trie, full, Columns(t, |full|), |t.path|, k))
    decreases k
  {
    hide Adopted, TakenOut, SharedShaped, PartlyPublished, CanonicalRows, ReplacedRows, Flatten, AllDifferences, PagesOf;
    if k == |t.path| {
      NothingAdopted(s, t, full, m);
    } else {
      WalkPublishes(s, t, full, m, k - 1);
      WalkPublishesNext(s, t, full, m, k - 1);
    }
  }

  ghost predicate WalkPublished(s: Shared, t: Table, full: Path, m: nat, k: nat, all: seq<Replacement>)
    requires SharedShaped(s) && Publishable(s, t, full, m) && |t.path| <= k <= m
  {
    && InTables(t.layers, all)
    && Adopted(t.layers, all) == PartlyPublished(s, t, full, m, k)
    && TakenOut(t.layers, all) == Flatten(ReplacedRows(s, t, full, m)[..k - |t.path|])
    && PagesOf(all) == Flatten(CanonicalRows(s, t, full, m)[..k - |t.path|])
  }

  lemma WalkPublishesNext(s: Shared, t: Table, full: Path, m: nat, k: nat)
    requires SharedShaped(s) && Publishable(s, t, full, m) && |t.path| <= k < m
    requires WalkPublished(s, t, full, m, k, AllDifferences(s.trie, full, Columns(t, |full|), |t.path|, k))
    ensures WalkPublished(s, t, full, m, k + 1, AllDifferences(s.trie, full, Columns(t, |full|), |t.path|, k + 1))
  {
    hide Adopted, TakenOut, SharedShaped, DifferencesUpTo, Differing, PartlyPublished, CanonicalRows, ReplacedRows, Flatten, PagesOf, InTables;
    NextBlockPublished(s, t, full, m, k);
    var before := AllDifferences(s.trie, full, Columns(t, |full|), |t.path|, k);
    var canonical, own := s.trie[full[..k + 1]].pages, Column(t, k);
    var more := DifferencesUpTo(canonical, own, k, |own|);
    assert Columns(t, |full|)[k] == own;
    InTablesOfShape(PartlyPublished(s, t, full, m, k), t.layers, more);
    AdoptedConcat(t.layers, before, more);
    NextRows(s, t, full, m, k);
    DifferencesPages(canonical, own, k, |own|);
    assert own[..|own|] == own && canonical[..|own|] == canonical;
    PagesOfConcat(before, more);
  }

  lemma PagesOfConcat(a: seq<Replacement>, b: seq<Replacement>)
    ensures PagesOf(a + b) == PagesOf(a) + PagesOf(b)
  {
  }

  lemma NextRows(s: Shared, t: Table, full: Path, m: nat, k: nat)
    requires SharedShaped(s) && Publishable(s, t, full, m) && |t.path| <= k < m
    ensures full[..k + 1] in s.trie && |s.trie[full[..k + 1]].pages| == |Column(t, k)|
    ensures var i := k - |t.path|;
            && Flatten(ReplacedRows(s, t, full, m)[..i + 1]) ==
                 Flatten(ReplacedRows(s, t, full, m)[..i]) + Differing(Column(t, k), s.trie[full[..k + 1]].pages)
            && Flatten(CanonicalRows(s, t, full, m)[..i + 1]) ==
                 Flatten(CanonicalRows(s, t, full, m)[..i]) + Differing(s.trie[full[..k + 1]].pages, Column(t, k))
  {
    hide Differing, Flatten;
    var replaced, adopted := ReplacedRows(s, t, full, m), CanonicalRows(s, t, full, m);
    var i := k - |t.path|;
    assert full[..|t.path| + i + 1] == full[..k + 1];
    assert replaced[..i + 1] == replaced[..i] + [replaced[i]];
    assert adopted[..i + 1] == adopted[..i] + [adopted[i]];
    FlattenSnoc(replaced[..i], replaced[i]);
    FlattenSnoc(adopted[..i], adopted[i]);
  }

  lemma NothingAdopted(s: Shared, t: Table, full: Path, m: nat)
    requires SharedShaped(s) && Publishable(s, t, full, m)
    ensures WalkPublished(s, t, full, m, |t.path|, AllDifferences(s.trie, full, Columns(t, |full|), |t.path|, |t.path|))
  {
    NothingPublished(s, t, full, m);
    hide SharedShaped, Publishable, PartlyPublished, ReplacedRows, CanonicalRows;
    assert ReplacedRows(s, t, full, m)[..0] == [] && CanonicalRows(s, t, full, m)[..0] == [];
  }

  lemma NothingPublished(s: Shared, t: Table, full: Path, m: nat)
    requires SharedShaped(s) && Publishable(s, t, full, m)
    ensures PartlyPublished(s, t, full, m, |t.path|) == t.layers
  {
    forall l | 0 <= l < |t.layers| ensures t.layers[l] == PartlyPublished(s, t, full, m, |t.path|)[l] {
      assert t.layers[l].pages == PartlyPublished(s, t, full, m, |t.path|)[l].pages;
    }
  }

  lemma InTablesOfShape(a: seq<LayerTable>, b: seq<LayerTable>, x: seq<Replacement>)
    requires InTables(a, x) && |a| == |b| && forall l :: 0 <= l < |a| ==> |a[l].pages| == |b[l].pages|
    ensures InTables(b, x)
  {
  }
}
