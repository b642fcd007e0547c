/** Boards as row-major matrices of orbs, with the counting facts the board model needs. */
module Grids {
  import opened PadTypes

  /** `g[y][x]` is the orb in row `y`, column `x`. */
  type Grid = seq<seq<Orb>>

  /** Cell (`c`, `r`) comes before (`x`, `y`) in reading order: row by row,
      left to right. */
  predicate Before(r: int, c: int, y: int, x: int)
  {
    r < y || (r == y && c < x)
  }

  predicate Shaped(g: Grid, rows: nat, cols: nat)
  {
    |g| == rows && forall r :: 0 <= r < rows ==> |g[r]| == cols
  }

  /** The cells in the order the source's nested loops visit them. */
  function Flatten(g: Grid): seq<Orb>
  {
    if g == [] then [] else Flatten(g[..|g| - 1]) + g[|g| - 1]
  }

  lemma {:induction false} FlattenLength(g: Grid, rows: nat, cols: nat)
    requires Shaped(g, rows, cols)
    ensures |Flatten(g)| == rows * cols
  {
    if rows > 0 {
      FlattenLength(g[..rows - 1], rows - 1, cols);
      assert (rows - 1) * cols + cols == rows * cols;
    }
  }

  /** Number of occurrences of `o` in a sequence. */
  function SeqCount(s: seq<Orb>, o: Orb): nat
  {
    if s == [] then 0 else SeqCount(s[..|s| - 1], o) + (if s[|s| - 1] == o then 1 else 0)
  }

  lemma {:induction false} SeqCountAppend(a: seq<Orb>, b: seq<Orb>, o: Orb)
    ensures SeqCount(a + b, o) == SeqCount(a, o) + SeqCount(b, o)
  {
    if b != [] {
      assert (a + b)[..|a + b| - 1] == a + b[..|b| - 1];
      SeqCountAppend(a, b[..|b| - 1], o);
    } else {
      assert a + b == a;
    }
  }

  lemma {:induction false} SeqCountUpdate(s: seq<Orb>, i: nat, v: Orb, o: Orb)
    requires i < |s|
    ensures SeqCount(s[i := v], o) + (if s[i] == o then 1 else 0)
         == SeqCount(s, o) + (if v == o then 1 else 0)
  {
    var n := |s| - 1;
    if i < n {
      assert s[i := v][..n] == s[..n][i := v];
      SeqCountUpdate(s[..n], i, v, o);
    } else {
      assert s[i := v][..n] == s[..n];
    }
  }

  /** Number of cells holding `o`, counted row by row. */
  function GridCount(g: Grid, o: Orb): nat
  {
    if g == [] then 0 else GridCount(g[..|g| - 1], o) + SeqCount(g[|g| - 1], o)
  }

  /** Counting per row agrees with counting the flattened cells. */
  lemma {:induction false} GridCountFlatten(g: Grid, o: Orb)
    ensures GridCount(g, o) == SeqCount(Flatten(g), o)
  {
    if g != [] {
      GridCountFlatten(g[..|g| - 1], o);
      SeqCountAppend(Flatten(g[..|g| - 1]), g[|g| - 1], o);
    }
  }

  /** The grid with one cell replaced. */
  function SetCell(g: Grid, r: nat, c: nat, v: Orb): (h: Grid)
    requires r < |g| && c < |g[r]|
    ensures |h| == |g|
    ensures forall i :: 0 <= i < |g| ==> |h[i]| == |g[i]|
    ensures h[r][c] == v
    ensures forall i, j :: 0 <= i < |g| && 0 <= j < |g[i]| && (i != r || j != c) ==> h[i][j] == g[i][j]
  {
    g[r := g[r][c := v]]
  }

  /** Replacing one cell changes the count of `o` by at most that cell. */
  lemma {:induction false} SetCellCount(g: Grid, r: nat, c: nat, v: Orb, o: Orb)
    requires r < |g| && c < |g[r]|
    ensures GridCount(SetCell(g, r, c, v), o) + (if g[r][c] == o then 1 else 0)
         == GridCount(g, o) + (if v == o then 1 else 0)
  {
    var n := |g| - 1;
    var h := SetCell(g, r, c, v);
    if r < n {
      assert h[..n] == SetCell(g[..n], r, c, v);
      SetCellCount(g[..n], r, c, v, o);
    } else {
      assert h[..n] == g[..n];
      SeqCountUpdate(g[r], c, v, o);
    }
  }

  /** Number of cells at which two equally shaped grids differ. */
  function Diff(g: Grid, h: Grid): nat
    requires |g| == |h|
    requires forall i :: 0 <= i < |g| ==> |g[i]| == |h[i]|
  {
    if g == [] then 0 else Diff(g[..|g| - 1], h[..|h| - 1]) + RowDiff(g[|g| - 1], h[|h| - 1])
  }

  function RowDiff(a: seq<Orb>, b: seq<Orb>): nat
    requires |a| == |b|
  {
    if a == [] then 0 else RowDiff(a[..|a| - 1], b[..|b| - 1]) + (if a[|a| - 1] != b[|b| - 1] then 1 else 0)
  }

  /** Cell `b` arises from cell `a` by leaving it or by erasing an orb of colour `color`. */
  predicate Turned(a: Orb, b: Orb, color: Orb)
  {
    b == a || (a == color && b == Cleared)
  }

  lemma {:induction false} RowDiffIsNewlyCleared(a: seq<Orb>, b: seq<Orb>, color: Orb)
    requires |a| == |b|
    requires forall j :: 0 <= j < |a| ==> Turned(a[j], b[j], color)
    ensures RowDiff(a, b) + SeqCount(a, Cleared) == SeqCount(b, Cleared)
  {
    if a != [] {
      RowDiffIsNewlyCleared(a[..|a| - 1], b[..|b| - 1], color);
    }
  }

  /** When every change erases an orb, the number of changed cells is the number of
      cells that became `Cleared`. */
  lemma {:induction false} DiffIsNewlyCleared(g: Grid, h: Grid, color: Orb)
    requires |g| == |h|
    requires forall i :: 0 <= i < |g| ==> |g[i]| == |h[i]|
    requires forall i, j :: 0 <= i < |g| && 0 <= j < |g[i]| ==> Turned(g[i][j], h[i][j], color)
    ensures Diff(g, h) + GridCount(g, Cleared) == GridCount(h, Cleared)
  {
    if g != [] {
      var n := |g| - 1;
      DiffIsNewlyCleared(g[..n], h[..n], color);
      RowDiffIsNewlyCleared(g[n], h[n], color);
    }
  }
  /** Two rows differ in no cell exactly when they are equal. */
  lemma {:induction false} RowDiffZero(a: seq<Orb>, b: seq<Orb>)
    requires |a| == |b|
    ensures RowDiff(a, b) == 0 <==> a == b
  {
    if a != [] {
      var n := |a| - 1;
      RowDiffZero(a[..n], b[..n]);
      assert a == a[..n] + [a[n]] && b == b[..n] + [b[n]];
    }
  }

  /** Two equally shaped grids differ in no cell exactly when they are equal. */
  lemma {:induction false} DiffZero(g: Grid, h: Grid)
    requires |g| == |h|
    requires forall i :: 0 <= i < |g| ==> |g[i]| == |h[i]|
    ensures Diff(g, h) == 0 <==> g == h
  {
    if g != [] {
      var n := |g| - 1;
      DiffZero(g[..n], h[..n]);
      RowDiffZero(g[n], h[n]);
      assert g == g[..n] + [g[n]] && h == h[..n] + [h[n]];
    }
  }

  /** Two grids of the same shape with the same cells are equal. */
  lemma GridsEqual(g: Grid, h: Grid, rows: nat, cols: nat)
    requires Shaped(g, rows, cols) && Shaped(h, rows, cols)
    requires forall r, c :: 0 <= r < rows && 0 <= c < cols ==> g[r][c] == h[r][c]
    ensures g == h
  {
    forall r | 0 <= r < rows
      ensures g[r] == h[r]
    {
      assert forall c :: 0 <= c < cols ==> g[r][c] == h[r][c];
    }
  }
}
