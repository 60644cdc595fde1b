/** The prefix index seen as a trie: which block paths are indexed, with the page of each layer and
    the last access time. `PrefixBlockIndex` is the hash-map representation of this value. */
module PrefixTrie {
  import opened Common
  import Arithmetic
  import opened PagePool

  /** One page-sized run of tokens. */
  type Block = seq<Token>
  type Path = seq<Block>

  datatype Node = Node(pages: seq<PageId>, stamp: nat)
  type Trie = map<Path, Node>

  /** `chunks_exact`: the complete blocks of a token sequence. */
  function Blocks(tokens: seq<Token>, size: nat): Path
    requires size > 0
  {
    if |tokens| < size then [] else [tokens[..size]] + Blocks(tokens[size..], size)
  }

  function MatchFrom(t: Trie, path: Path, k: nat): (m: nat)
    requires k <= |path|
    ensures k <= m <= |path|
    decreases |path| - k
  {
    if k < |path| && path[..k + 1] in t then MatchFrom(t, path, k + 1) else k
  }

  function LongestMatch(t: Trie, path: Path): nat { MatchFrom(t, path, 0) }

  ghost predicate PrefixClosed(t: Trie) {
    forall q :: q in t ==> q != [] && forall k :: 0 < k <= |q| ==> q[..k] in t
  }

  /** Accesses touch one path at a time, so blocks with the same stamp lie on one path. */
  ghost predicate StampsOk(t: Trie, clock: nat) {
    && (forall q :: q in t ==> t[q].stamp < clock)
    && (forall q, u :: q in t && u in t && t[q].stamp == t[u].stamp ==> q <= u || u <= q)
  }

  ghost predicate NodesShaped(t: Trie, size: nat, layerCount: nat) {
    forall q :: q in t ==> |t[q].pages| == layerCount && forall k :: 0 <= k < |q| ==> |q[k]| == size
  }

  /** Gives the indexed blocks a < k <= b of a path a new access stamp. */
  function Touch(t: Trie, path: Path, a: nat, b: nat, stamp: nat): Trie {
    map q | q in t :: if a < |q| <= b && q <= path then t[q].(stamp := stamp) else t[q]
  }

  function NewPaths(path: Path, m: nat): set<Path> {
    set k | m < k <= |path| :: path[..k]
  }

  /** Adds the blocks of `path` after the first m, with the given pages. */
  function Insert(t: Trie, path: Path, m: nat, columns: seq<seq<PageId>>, stamp: nat): Trie
    requires |columns| >= |path|
  {
    t + (map q | q in NewPaths(path, m) :: Node(columns[|q| - 1], stamp))
  }

  ghost predicate IsLeaf(t: Trie, q: Path) {
    q in t && forall u :: u in t ==> !(q < u)
  }

  ghost predicate IsEvictable(t: Trie, p: Pool, q: Path) {
    IsLeaf(t, q) && ArePagesInactive(p, t[q].pages)
  }

  ghost predicate IsVictim(t: Trie, p: Pool, v: Path) {
    IsEvictable(t, p, v) && forall u :: IsEvictable(t, p, u) ==> t[v].stamp <= t[u].stamp
  }

  ghost function Victim(t: Trie, p: Pool): (v: Option<Path>)
    ensures v.Some? ==> IsVictim(t, p, v.value)
    ensures v.None? ==> forall u :: !IsEvictable(t, p, u)
  {
    if exists u :: IsEvictable(t, p, u) then
      VictimExists(t, p);
      var v :| IsVictim(t, p, v);
      Some(v)
    else None
  }

  lemma VictimExists(t: Trie, p: Pool)
    requires exists u :: IsEvictable(t, p, u)
    ensures exists v :: IsVictim(t, p, v)
  {
    var u :| IsEvictable(t, p, u);
    VictimBelow(t, p, u);
  }

  lemma {:induction false} VictimBelow(t: Trie, p: Pool, u: Path)
    requires IsEvictable(t, p, u)
    ensures exists v :: IsVictim(t, p, v)
    decreases t[u].stamp
  {
    if w :| IsEvictable(t, p, w) && t[w].stamp < t[u].stamp {
      VictimBelow(t, p, w);
    } else {
      assert IsVictim(t, p, u);
    }
  }

  // ---- Meaning -------------------------------------------------------------------------------

  lemma {:induction false} MatchFromIsLongest(t: Trie, path: Path, k: nat)
    requires PrefixClosed(t) && k <= |path|
    requires k > 0 ==> path[..k] in t
    ensures forall j :: 0 < j <= |path| ==> (path[..j] in t <==> j <= MatchFrom(t, path, k))
    decreases |path| - k
  {
    if k < |path| && path[..k + 1] in t {
      MatchFromIsLongest(t, path, k + 1);
    } else {
      forall j | 0 < j <= |path|
        ensures path[..j] in t <==> j <= k
      {
        if j <= k {
          assert path[..j] == path[..k][..j];
        } else {
          assert path[..k + 1] == path[..j][..k + 1];
        }
      }
    }
  }

  /** A lookup finds the longest indexed prefix: a prefix of blocks is indexed exactly when it is no
      longer than the match. */
  lemma LookupIsLongest(t: Trie, path: Path)
    requires PrefixClosed(t)
    ensures forall j :: 0 < j <= |path| ==> (path[..j] in t <==> j <= LongestMatch(t, path))
  {
    MatchFromIsLongest(t, path, 0);
  }

  /** The least recently used eligible leaf is unique, so hash iteration order cannot matter. */
  lemma VictimUnique(t: Trie, p: Pool, clock: nat, v: Path, w: Path)
    requires StampsOk(t, clock) && IsVictim(t, p, v) && IsVictim(t, p, w)
    ensures v == w
  {
    assert t[v].stamp == t[w].stamp;
    assert !(v < w) && !(w < v);
    assert v <= w || w <= v;
  }

  lemma TouchKeepsTrie(t: Trie, path: Path, a: nat, b: nat, clock: nat)
    requires PrefixClosed(t) && StampsOk(t, clock)
    ensures PrefixClosed(Touch(t, path, a, b, clock)) && StampsOk(Touch(t, path, a, b, clock), clock + 1)
  {
    var t' := Touch(t, path, a, b, clock);
    forall q, u | q in t' && u in t' && t'[q].stamp == t'[u].stamp
      ensures q <= u || u <= q
    {
      PrefixesComparable(q, u, path);
    }
  }

  lemma PrefixesComparable<T>(q: seq<T>, u: seq<T>, path: seq<T>)
    ensures q <= path && u <= path ==> q <= u || u <= q
  {
  }

  lemma InsertKeepsTrie(t: Trie, path: Path, m: nat, columns: seq<seq<PageId>>, clock: nat)
    requires PrefixClosed(t) && StampsOk(t, clock + 1) && m <= |path| <= |columns|
    requires m > 0 ==> path[..m] in t
    requires forall q :: q in t && t[q].stamp == clock ==> q <= path
    ensures PrefixClosed(Insert(t, path, m, columns, clock)) && StampsOk(Insert(t, path, m, columns, clock), clock + 1)
  {
    var t' := Insert(t, path, m, columns, clock);
    forall q | q in t'
      ensures q != [] && forall k :: 0 < k <= |q| ==> q[..k] in t'
    {
      if q in NewPaths(path, m) {
        forall k | 0 < k <= |q|
          ensures q[..k] in t'
        {
          assert q[..k] == path[..k];
          if k <= m {
            assert path[..k] == path[..m][..k];
          } else {
            assert path[..k] in NewPaths(path, m);
          }
        }
      }
    }
    forall q, u | q in t' && u in t' && t'[q].stamp == t'[u].stamp
      ensures q <= u || u <= q
    {
      PrefixesComparable(q, u, path);
      if q in NewPaths(path, m) { assert q <= path; }
      if u in NewPaths(path, m) { assert u <= path; }
    }
  }

  lemma RemoveLeafKeepsTrie(t: Trie, v: Path, clock: nat)
    requires PrefixClosed(t) && StampsOk(t, clock) && IsLeaf(t, v)
    ensures PrefixClosed(t - {v}) && StampsOk(t - {v}, clock)
  {
    forall q | q in t - {v}
      ensures q != [] && forall k :: 0 < k <= |q| ==> q[..k] in t - {v}
    {
      forall k | 0 < k <= |q|
        ensures q[..k] in t - {v}
      {
        if k < |q| { assert q[..k] < q && q[..k] != v; } else { assert q[..k] == q; }
      }
    }
  }

  lemma PathsGrow(path: Path, m: nat, k: nat)
    requires m <= k < |path|
    ensures NewPaths(path[..k + 1], m) == NewPaths(path[..k], m) + {path[..k + 1]}
  {
    hide NewPaths;
    forall q ensures q in NewPaths(path[..k + 1], m) <==> q in NewPaths(path[..k], m) || q == path[..k + 1] {
      OneMorePath(path, m, k, q);
    }
  }

  lemma OneMorePath(path: Path, m: nat, k: nat, q: Path)
    requires m <= k < |path|
    ensures q in NewPaths(path[..k + 1], m) <==> q in NewPaths(path[..k], m) || q == path[..k + 1]
  {
    if q in NewPaths(path[..k + 1], m) {
      var j :| m < j <= k + 1 && q == path[..k + 1][..j];
      assert q == path[..j];
      if j <= k { assert path[..k][..j] == path[..j]; }
    }
    if q in NewPaths(path[..k], m) {
      var j :| m < j <= k && q == path[..k][..j];
      assert path[..k + 1][..j] == q;
    }
    if q == path[..k + 1] { assert path[..k + 1][..k + 1] == q; }
  }

  lemma {:induction false} NewPathCount(path: Path, m: nat, n: nat)
    requires m <= n <= |path|
    ensures |NewPaths(path[..n], m)| == n - m
    decreases n
  {
    if n > m {
      NewPathCount(path, m, n - 1);
      PathsGrow(path, m, n - 1);
      assert path[..n] !in NewPaths(path[..n - 1], m);
    }
  }

  lemma InsertCount(t: Trie, path: Path, m: nat, columns: seq<seq<PageId>>, stamp: nat)
    requires m <= |path| <= |columns| && t.Keys !! NewPaths(path, m)
    ensures |Insert(t, path, m, columns, stamp)| == |t| + |path| - m
  {
    NewPathCount(path, m, |path|);
    assert path[..|path|] == path;
    hide NewPaths;
    assert Insert(t, path, m, columns, stamp).Keys == t.Keys + NewPaths(path, m);
  }

  // ---- Token blocks --------------------------------------------------------------------------

  lemma {:induction false} BlocksShape(tokens: seq<Token>, size: nat)
    requires size > 0
    ensures forall k :: 0 <= k < |Blocks(tokens, size)| ==> |Blocks(tokens, size)[k]| == size
    ensures |Blocks(tokens, size)| == Arithmetic.Div(|tokens|, size)
    decreases |tokens|
  {
    if |tokens| >= size {
      BlocksShape(tokens[size..], size);
      var n := |tokens| - size;
      assert n == (n / size) * size + n % size;
      assert (n / size + 1) * size == (n / size) * size + size;
      Arithmetic.DivUnique(|tokens|, size, n / size + 1, n % size);
    }
  }

  /** The complete blocks of a shorter prefix are a prefix of the complete blocks. */
  lemma {:induction false} BlocksOfPrefix(tokens: seq<Token>, n: nat, size: nat)
    requires size > 0 && n <= |tokens|
    ensures Blocks(tokens[..n], size) <= Blocks(tokens, size)
    decreases |tokens|
  {
    if n >= size {
      BlocksOfPrefix(tokens[size..], n - size, size);
      assert tokens[..n][size..] == tokens[size..][..n - size];
      assert tokens[..n][..size] == tokens[..size];
    }
  }

  /** The tokens of k blocks of a sequence are its first k * size tokens, and the tokens up to slot j
      of the next block are its first k * size + j + 1 tokens. */
  lemma {:induction false} BlocksFlatten(tokens: seq<Token>, size: nat, k: nat)
    requires size > 0 && k <= |Blocks(tokens, size)|
    ensures k * size <= |tokens| && Flatten(Blocks(tokens, size)[..k]) == tokens[..k * size]
    ensures k < |Blocks(tokens, size)| ==>
              && (k + 1) * size <= |tokens|
              && Blocks(tokens, size)[k] == tokens[k * size..(k + 1) * size]
    decreases k
  {
    var b := Blocks(tokens, size);
    if k == 0 {
      assert b[..0] == [];
    } else {
      var rest := tokens[size..];
      BlocksFlatten(rest, size, k - 1);
      assert b[..k][1..] == Blocks(rest, size)[..k - 1] && b[..k][0] == tokens[..size];
      assert (k - 1) * size + size == k * size && k * size + size == (k + 1) * size;
      assert tokens[..k * size] == tokens[..size] + rest[..(k - 1) * size];
      if k < |b| {
        assert rest[(k - 1) * size..k * size] == tokens[k * size..(k + 1) * size];
      }
    }
  }
}
