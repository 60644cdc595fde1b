/** Names shared by every component of the inference backend. */
module Common {
  type Token = nat
  type RequestId = nat

  datatype Option<+T> = None | Some(value: T)

  /** The cached key and value of one token in one layer. Nothing is computed with the numbers:
      they only stand for "this tensor slice", so equal entries mean equal slices. */
  datatype KvEntry = KvEntry(key: int, value: int)

  function Min(a: int, b: int): int { if a <= b then a else b }

  function Max(a: int, b: int): int { if a <= b then b else a }

  ghost predicate Distinct<T>(s: seq<T>) {
    forall i, j :: 0 <= i < j < |s| ==> s[i] != s[j]
  }

  function Last<T>(s: seq<T>): T
    requires s != []
  {
    s[|s| - 1]
  }

  /** Concatenates rows, as `iter().flatten()` does. */
  function Flatten<T>(rows: seq<seq<T>>): seq<T> {
    if rows == [] then [] else rows[0] + Flatten(rows[1..])
  }

  /** No element occurs at two positions of the grid. */
  ghost predicate GridDistinct<T>(rows: seq<seq<T>>) {
    forall i, j, i', j' |
      0 <= i < |rows| && 0 <= j < |rows[i]| && 0 <= i' < |rows| && 0 <= j' < |rows[i']| && rows[i][j] == rows[i'][j'] ::
      i == i' && j == j'
  }

  lemma {:induction false} FlattenMembers<T>(rows: seq<seq<T>>, x: T)
    ensures x in Flatten(rows) <==> exists i :: 0 <= i < |rows| && x in rows[i]
  {
    if rows != [] {
      FlattenMembers(rows[1..], x);
      if x in rows[0] {
      } else if x in Flatten(rows[1..]) {
        var i :| 0 <= i < |rows[1..]| && x in rows[1..][i];
        assert x in rows[i + 1];
      } else {
        forall i | 0 <= i < |rows|
          ensures x !in rows[i]
        {
          if i > 0 { assert rows[i] == rows[1..][i - 1]; }
        }
      }
    }
  }

  lemma {:induction false} FlattenDistinct<T>(rows: seq<seq<T>>)
    requires GridDistinct(rows)
    ensures Distinct(Flatten(rows))
  {
    if rows != [] {
      var rest := rows[1..];
      forall i, j, i', j' | 0 <= i < |rest| && 0 <= j < |rest[i]| && 0 <= i' < |rest| && 0 <= j' < |rest[i']| &&
          rest[i][j] == rest[i'][j']
        ensures i == i' && j == j'
      {
        assert rows[i + 1][j] == rows[i' + 1][j'];
      }
      FlattenDistinct(rest);
      forall i, j | 0 <= i < j < |Flatten(rows)|
        ensures Flatten(rows)[i] != Flatten(rows)[j]
      {
        if i < |rows[0]| && j >= |rows[0]| {
          var x := Flatten(rest)[j - |rows[0]|];
          FlattenMembers(rest, x);
          var k :| 0 <= k < |rest| && x in rest[k];
          var m :| 0 <= m < |rest[k]| && rest[k][m] == x;
          assert rows[k + 1][m] == x;
        } else if i < |rows[0]| {
          assert rows[0][i] != rows[0][j];
        } else {
          assert Flatten(rows)[i] == Flatten(rest)[i - |rows[0]|];
        }
      }
    }
  }
}

/** Division facts about page arithmetic. Division and remainder have names so that large proofs can
    hide their definitions and reason from the lemmas below. */
module Arithmetic {
  function Div(n: nat, d: nat): nat
    requires d > 0
  {
    n / d
  }

  function Mod(n: nat, d: nat): nat
    requires d > 0
  {
    n % d
  }

  function CeilDiv(n: nat, d: nat): nat
    requires d > 0
  {
    Div(n + d - 1, d)
  }

  lemma DivUnique(n: nat, d: nat, k: nat, j: nat)
    requires d > 0 && j < d && n == k * d + j
    ensures Div(n, d) == k && Mod(n, d) == j
  {
    var gap: int := n / d - k;
    assert n == (n / d) * d + n % d;
    assert gap * d == j - n % d;
    assert gap < 1 by { assert gap >= 1 ==> gap * d >= d; }
    assert gap > -1 by { assert gap <= -1 ==> gap * d <= -1 * d; }
  }

  lemma DivMod(n: nat, d: nat)
    requires d > 0
    ensures n == Div(n, d) * d + Mod(n, d) && Mod(n, d) < d
  {
  }

  lemma CeilDivForm(n: nat, d: nat)
    requires d > 0
    ensures CeilDiv(n, d) == Div(n, d) + (if Mod(n, d) == 0 then 0 else 1) && Mod(n, d) < d
  {
    var k, j := n / d, n % d;
    assert n == k * d + j;
    if j == 0 {
      DivUnique(n + d - 1, d, k, d - 1);
    } else {
      assert n + d - 1 == (k + 1) * d + (j - 1) by { assert (k + 1) * d == k * d + d; }
      DivUnique(n + d - 1, d, k + 1, j - 1);
    }
  }

  lemma DivMonotone(a: nat, b: nat, d: nat)
    requires d > 0 && a <= b
    ensures Div(a, d) <= Div(b, d)
  {
    var x, y := a / d, b / d;
    assert a == x * d + a % d && b == y * d + b % d;
    assert (x - y) * d < d;
    assert x - y < 1 by { assert x - y >= 1 ==> (x - y) * d >= d; }
  }

  lemma CeilDivMonotone(a: nat, b: nat, d: nat)
    requires d > 0 && a <= b
    ensures CeilDiv(a, d) <= CeilDiv(b, d)
  {
    DivMonotone(a + d - 1, b + d - 1, d);
  }

  /** Filling part of the current page, or opening a new one. */
  lemma ChunkGrowth(n: nat, w: nat, d: nat)
    requires d > 0 && 0 < w <= d - Mod(n, d)
    ensures CeilDiv(n + w, d) == CeilDiv(n, d) + (if Mod(n, d) == 0 then 1 else 0)
    ensures Div(n + w, d) == Div(n, d) + (if w == d - Mod(n, d) then 1 else 0)
    ensures Mod(n + w, d) == if w == d - Mod(n, d) then 0 else Mod(n, d) + w
  {
    CeilDivForm(n, d);
    CeilDivForm(n + w, d);
    DivMod(n, d);
    hide Div, Mod, CeilDiv;
    var k, j := Div(n, d), Mod(n, d);
    SumUnique(k, j + w, d);
    assert k * d + (j + w) == n + w;
  }

  lemma SumUnique(k: nat, x: nat, d: nat)
    requires d > 0 && x <= d
    ensures Div(k * d + x, d) == k + (if x == d then 1 else 0) && Mod(k * d + x, d) == if x == d then 0 else x
  {
    if x == d {
      assert (k + 1) * d == k * d + d;
      DivUnique(k * d + x, d, k + 1, 0);
    } else {
      DivUnique(k * d + x, d, k, x);
    }
  }

  lemma Scale(n: nat, a: nat, b: nat)
    requires a <= b
    ensures n * a <= n * b
  {
    assert n * b == n * a + n * (b - a);
  }

  /** An index below n lies on a page among the first CeilDiv(n, d). */
  lemma PageOfIndex(i: nat, n: nat, d: nat)
    requires d > 0 && i < n
    ensures Div(i, d) < CeilDiv(n, d) && Mod(i, d) < d
    ensures Div(i, d) <= Div(n, d) && (Div(i, d) == Div(n, d) ==> Mod(i, d) < Mod(n, d))
  {
    CeilDivForm(n, d);
    DivMonotone(i, n, d);
    assert i == (i / d) * d + i % d && n == (n / d) * d + n % d;
  }

  lemma CeilDivBounds(n: nat, d: nat)
    requires d > 0
    ensures n <= CeilDiv(n, d) * d
    ensures Div(n, d) <= CeilDiv(n, d)
    ensures n == 0 ==> CeilDiv(n, d) == 0
    ensures n > 0 ==> CeilDiv(n, d) > 0 && (CeilDiv(n, d) - 1) * d < n
  {
    CeilDivForm(n, d);
    assert n == (n / d) * d + n % d;
    var c := CeilDiv(n, d);
    if n % d != 0 {
      assert c * d == (n / d) * d + d;
      assert (c - 1) * d == (n / d) * d;
    } else {
      assert c == n / d;
      assert (c - 1) * d == (n / d) * d - d;
    }
    if n == 0 { DivUnique(0, d, 0, 0); }
  }

  lemma CeilDivShift(k: nat, x: nat, d: nat)
    requires d > 0
    ensures CeilDiv(k * d + x, d) == k + CeilDiv(x, d)
  {
    var y: nat := x + d - 1;
    DivMod(y, d);
    assert (k + Div(y, d)) * d == k * d + Div(y, d) * d;
    DivUnique(k * d + y, d, k + Div(y, d), Mod(y, d));
  }

  lemma MulDiv(k: nat, d: nat)
    requires d > 0
    ensures Div(k * d, d) == k && Mod(k * d, d) == 0 && CeilDiv(k * d, d) == k
  {
    DivUnique(k * d, d, k, 0);
    CeilDivForm(k * d, d);
  }
}
