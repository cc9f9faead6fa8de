/** Square and cubic grids as nested sequences (u[i][j], u[i][j][k]), their
    totals, and the row-major layout that connects them to flat fields
    (numpy's `reshape` in both directions). */
module Grids {
  import opened Fields

  type Grid2 = seq<seq<real>>
  type Grid3 = seq<seq<seq<real>>>

  /** An N x N grid. */
  predicate IsSquare(u: Grid2, n: nat)
  {
    |u| == n && forall i :: 0 <= i < n ==> |u[i]| == n
  }

  /** An N x N x N grid. */
  predicate IsCube(u: Grid3, n: nat)
  {
    |u| == n && forall i :: 0 <= i < n ==> IsSquare(u[i], n)
  }

  /** The total of each row of a grid. */
  function RowSums(u: Grid2): (r: seq<real>)
    ensures |r| == |u|
  {
    seq(|u|, i requires 0 <= i < |u| => Sum(u[i]))
  }

  /** Total over all cells of a 2D grid. */
  function Sum2(u: Grid2): real
  {
    Sum(RowSums(u))
  }

  /** The total of each slab u[i] of a 3D grid. */
  function SlabSums(u: Grid3): (r: seq<real>)
    ensures |r| == |u|
  {
    seq(|u|, i requires 0 <= i < |u| => Sum2(u[i]))
  }

  /** Total over all cells of a 3D grid. */
  function Sum3(u: Grid3): real
  {
    Sum(SlabSums(u))
  }

  /** Row-major layout of a 2D grid: its rows one after another. */
  function Flatten(u: Grid2): seq<real>
  {
    if |u| == 0 then [] else u[0] + Flatten(u[1..])
  }

  /** Row-major layout of a 3D grid: its slabs one after another. */
  function Flatten3(u: Grid3): seq<real>
  {
    Flatten(seq(|u|, i requires 0 <= i < |u| => Flatten(u[i])))
  }

  /** The k consecutive pieces of length m of x. */
  function Chunk(x: seq<real>, m: nat, k: nat): (r: Grid2)
    requires |x| == k * m
    ensures |r| == k && forall i :: 0 <= i < k ==> |r[i]| == m
    decreases k
  {
    if k == 0 then [] else MulPred(k, m); [x[..m]] + Chunk(x[m..], m, k - 1)
  }

  /** k * m cells less one piece of m leave (k - 1) * m. */
  lemma {:induction false} MulPred(k: nat, m: nat)
    requires k > 0
    ensures m <= k * m && k * m - m == (k - 1) * m
  {
  }

  /** A flat field of N*N cells read back as an N x N grid. */
  function Unflatten2(x: Field, n: nat): (u: Grid2)
    requires |x| == n * n
    ensures IsSquare(u, n)
  {
    Chunk(x, n, n)
  }

  /** A flat field of N*N*N cells read back as an N x N x N grid. */
  function Unflatten3(x: Field, n: nat): (u: Grid3)
    requires |x| == n * n * n
    ensures IsCube(u, n)
  {
    var slabs := Chunk(x, n * n, n);
    seq(n, i requires 0 <= i < n => Chunk(slabs[i], n, n))
  }

  /** Laying a grid out flat keeps its total. */
  lemma {:induction false} SumFlatten(u: Grid2)
    ensures Sum(Flatten(u)) == Sum2(u)
  {
    if |u| > 0 {
      SumFlatten(u[1..]);
      SumAppend(u[0], Flatten(u[1..]));
      assert RowSums(u)[1..] == RowSums(u[1..]);
    }
  }

  lemma {:induction false} SumFlatten3(u: Grid3)
    ensures Sum(Flatten3(u)) == Sum3(u)
  {
    var slabs := seq(|u|, i requires 0 <= i < |u| => Flatten(u[i]));
    SumFlatten(slabs);
    forall i | 0 <= i < |u|
      ensures RowSums(slabs)[i] == SlabSums(u)[i]
    {
      SumFlatten(u[i]);
    }
    assert RowSums(slabs) == SlabSums(u);
  }

  /** A grid whose rows all have length m lays out to |u| * m cells. */
  lemma {:induction false} FlattenLength(u: Grid2, m: nat)
    requires forall i :: 0 <= i < |u| ==> |u[i]| == m
    ensures |Flatten(u)| == |u| * m
  {
    if |u| > 0 {
      FlattenLength(u[1..], m);
    }
  }

  lemma {:induction false} Flatten3Length(u: Grid3, n: nat)
    requires IsCube(u, n)
    ensures |Flatten3(u)| == n * n * n
  {
    var slabs := seq(|u|, i requires 0 <= i < |u| => Flatten(u[i]));
    forall i | 0 <= i < n
      ensures |slabs[i]| == n * n
    {
      FlattenLength(u[i], n);
    }
    FlattenLength(slabs, n * n);
  }

  /** Every cell of the layout of a grid whose cells all hold v holds v. */
  lemma {:induction false} FlattenUniform(u: Grid2, v: real)
    requires forall i, j :: 0 <= i < |u| && 0 <= j < |u[i]| ==> u[i][j] == v
    ensures forall k :: 0 <= k < |Flatten(u)| ==> Flatten(u)[k] == v
  {
    if |u| > 0 {
      FlattenUniform(u[1..], v);
    }
  }

  lemma {:induction false} Flatten3Uniform(u: Grid3, v: real)
    requires forall i, j, k :: 0 <= i < |u| && 0 <= j < |u[i]| && 0 <= k < |u[i][j]| ==> u[i][j][k] == v
    ensures forall k :: 0 <= k < |Flatten3(u)| ==> Flatten3(u)[k] == v
  {
    var slabs := seq(|u|, i requires 0 <= i < |u| => Flatten(u[i]));
    forall i | 0 <= i < |u|
      ensures forall k :: 0 <= k < |slabs[i]| ==> slabs[i][k] == v
    {
      FlattenUniform(u[i], v);
    }
    FlattenUniform(slabs, v);
  }

  /** Every piece of a flat field whose cells all hold v holds v throughout. */
  lemma {:induction false} ChunkUniform(x: seq<real>, m: nat, k: nat, v: real)
    requires |x| == k * m
    requires forall p :: 0 <= p < |x| ==> x[p] == v
    ensures forall i, j :: 0 <= i < k && 0 <= j < m ==> Chunk(x, m, k)[i][j] == v
    decreases k
  {
    if k > 0 {
      MulPred(k, m);
      ChunkUniform(x[m..], m, k - 1, v);
    }
  }

  lemma {:induction false} Unflatten3Uniform(x: Field, n: nat, v: real)
    requires |x| == n * n * n
    requires forall p :: 0 <= p < |x| ==> x[p] == v
    ensures forall i, j, k :: 0 <= i < n && 0 <= j < n && 0 <= k < n ==> Unflatten3(x, n)[i][j][k] == v
  {
    var slabs := Chunk(x, n * n, n);
    ChunkUniform(x, n * n, n, v);
    forall i | 0 <= i < n
      ensures forall j, k :: 0 <= j < n && 0 <= k < n ==> Chunk(slabs[i], n, n)[j][k] == v
    {
      ChunkUniform(slabs[i], n, n, v);
    }
  }
}
