/**
 * Sums over the two accumulators of the simulation (the per-lambda memory
 * array and the per-lambda, per-hour reuse timeline) and how a batch of
 * increments on distinct cells changes them.
 */
module Tally {

  /** The sum of a sequence of counters. */
  function Sum(s: seq<int>): int
  {
    if s == [] then 0 else Sum(s[..|s| - 1]) + s[|s| - 1]
  }

  /** The sum of each row of a matrix. */
  function RowSums(g: seq<seq<int>>): (r: seq<int>)
    ensures |r| == |g|
    ensures forall i :: 0 <= i < |g| ==> r[i] == Sum(g[i])
  {
    seq(|g|, i requires 0 <= i < |g| => Sum(g[i]))
  }

  /** The sum of every cell of a matrix. */
  function Total(g: seq<seq<int>>): int
  {
    Sum(RowSums(g))
  }

  /** The contents of a two-dimensional array, row by row. */
  ghost function Grid(t: array2<int>): (g: seq<seq<int>>)
    reads t
    ensures |g| == t.Length0
    ensures forall r :: 0 <= r < t.Length0 ==> |g[r]| == t.Length1
    ensures forall r, c :: 0 <= r < t.Length0 && 0 <= c < t.Length1 ==> g[r][c] == t[r, c]
  {
    seq(t.Length0, r requires 0 <= r < t.Length0 reads t =>
      seq(t.Length1, c requires 0 <= c < t.Length1 reads t => t[r, c]))
  }

  /** Counters that are all zero sum to zero. */
  lemma {:induction false} SumOfZeros(s: seq<int>)
    requires forall j :: 0 <= j < |s| ==> s[j] == 0
    ensures Sum(s) == 0
  {
    if s != [] {
      SumOfZeros(s[..|s| - 1]);
    }
  }

  /** A matrix of zeros has rows that sum to zero and totals zero. */
  lemma TotalOfZeros(g: seq<seq<int>>)
    requires forall r, c :: 0 <= r < |g| && 0 <= c < |g[r]| ==> g[r][c] == 0
    ensures forall r :: 0 <= r < |g| ==> RowSums(g)[r] == 0
    ensures Total(g) == 0
  {
    forall r | 0 <= r < |g|
      ensures Sum(g[r]) == 0
    {
      SumOfZeros(g[r]);
    }
    SumOfZeros(RowSums(g));
  }

  /** `m'` is `m` with `amount` added to each cell whose index is in `cells`, and to no other. */
  predicate Bumped(m: seq<int>, m': seq<int>, cells: set<nat>, amount: int)
  {
    && |m'| == |m|
    && (forall j :: j in cells ==> j < |m|)
    && (forall j :: 0 <= j < |m| ==> m'[j] == m[j] + (if j in cells then amount else 0))
  }

  /** Bumping one more cell, not bumped yet. */
  lemma BumpedSnoc(m: seq<int>, m': seq<int>, cells: set<nat>, cell: nat, amount: int)
    requires Bumped(m, m', cells, amount)
    requires cell < |m| && cell !in cells
    ensures Bumped(m, m'[cell := m'[cell] + amount], cells + {cell}, amount)
  {
  }

  /** Bumping cells by `amount` adds `amount` times the number of those cells to the sum. */
  lemma {:induction false} SumBumped(m: seq<int>, m': seq<int>, cells: set<nat>, amount: int)
    requires Bumped(m, m', cells, amount)
    ensures Sum(m') == Sum(m) + amount * |cells|
  {
    if m == [] {
      assert cells == {};
    } else {
      var n := |m| - 1;
      var rest := cells - {n};
      SumBumped(m[..n], m'[..n], rest, amount);
      assert Sum(m) == Sum(m[..n]) + m[n];
      assert Sum(m') == Sum(m'[..n]) + m'[n];
      if n in cells {
        assert cells == rest + {n};
        assert |cells| == |rest| + 1;
        ProductSucc(amount, |rest|);
      } else {
        assert cells == rest;
      }
    }
  }

  lemma ProductSucc(a: int, n: int)
    ensures a * (n + 1) == a * n + a
  {
  }

  /**
   * `g'` is `g` with the cell in column `col` of each row listed in `rows`
   * incremented by one, and no other cell changed.
   */
  predicate Ticked(g: seq<seq<int>>, g': seq<seq<int>>, col: nat, rows: set<nat>)
  {
    && |g'| == |g|
    && (forall r :: 0 <= r < |g| ==> |g'[r]| == |g[r]| && col < |g[r]|)
    && (forall r :: r in rows ==> r < |g|)
    && (forall r, c :: 0 <= r < |g| && 0 <= c < |g[r]| ==>
          g'[r][c] == g[r][c] + (if c == col && r in rows then 1 else 0))
  }

  /** A two-dimensional array whose cells grew as `Ticked` says has that grid as its contents. */
  lemma GridTicked(g: seq<seq<int>>, t: array2<int>, col: nat, rows: set<nat>)
    requires |g| == t.Length0 && col < t.Length1
    requires forall r :: 0 <= r < |g| ==> |g[r]| == t.Length1
    requires forall r :: r in rows ==> r < |g|
    requires forall r, c :: 0 <= r < t.Length0 && 0 <= c < t.Length1 ==>
      t[r, c] == g[r][c] + (if c == col && r in rows then 1 else 0)
    ensures Ticked(g, Grid(t), col, rows)
  {
  }

  /**
   * Incrementing by one the cell in column `col` of each row listed in
   * `rows`, and nothing else, adds one to the sum of each of those rows
   * and the number of those rows to the total.
   */
  lemma TotalBumped(g: seq<seq<int>>, g': seq<seq<int>>, col: nat, rows: set<nat>)
    requires Ticked(g, g', col, rows)
    ensures Bumped(RowSums(g), RowSums(g'), rows, 1)
    ensures Total(g') == Total(g) + |rows|
  {
    forall r | 0 <= r < |g|
      ensures RowSums(g')[r] == RowSums(g)[r] + (if r in rows then 1 else 0)
    {
      if r in rows {
        SumBumped(g[r], g'[r], {col}, 1);
      } else {
        SumBumped(g[r], g'[r], {}, 1);
      }
    }
    SumBumped(RowSums(g), RowSums(g'), rows, 1);
  }
}
