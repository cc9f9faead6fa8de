/** The periodic discrete Laplacians: the 5-point stencil on an N x N grid,
    the 7-point stencil on an N x N x N grid (each neighbour index wrapped
    modulo N, no special-cased edges, divided by the squared spacing
    h2 = dx^2), and the equivalent
    form built from whole-array rolls. */
module Laplacians {
  import opened Fields
  import opened Periodic
  import opened Grids
  import opened Wrappers

  // ---------------------------------------------------------------------
  // Specification of the stencils, cell by cell

  /** 5-point stencil sum at cell (i, j): the four axis neighbours, wrapped,
      minus four times the centre. */
  function Stencil2(u: Grid2, n: nat, i: int, j: int): real
    requires IsSquare(u, n) && 0 <= i < n && 0 <= j < n
  {
    u[Next(i, n)][j] + u[Prev(i, n)][j] + u[i][Next(j, n)] + u[i][Prev(j, n)] - 4.0 * u[i][j]
  }

  /** The 2D Laplacian at cell (i, j): the stencil sum over h2 = dx^2. */
  function Lap2Cell(u: Grid2, n: nat, h2: real, i: int, j: int): real
    requires IsSquare(u, n) && 0 <= i < n && 0 <= j < n && h2 != 0.0
  {
    Stencil2(u, n, i, j) / h2
  }

  function Lap2(u: Grid2, n: nat, h2: real): (r: Grid2)
    requires IsSquare(u, n) && h2 != 0.0
    ensures IsSquare(r, n)
  {
    seq(n, i requires 0 <= i < n => seq(n, j requires 0 <= j < n => Lap2Cell(u, n, h2, i, j)))
  }

  /** 7-point stencil sum at cell (i, j, k): the six axis neighbours,
      wrapped, minus six times the centre. */
  function Stencil3(u: Grid3, n: nat, i: int, j: int, k: int): real
    requires IsCube(u, n) && 0 <= i < n && 0 <= j < n && 0 <= k < n
  {
    u[Next(i, n)][j][k] + u[Prev(i, n)][j][k] +
    u[i][Next(j, n)][k] + u[i][Prev(j, n)][k] +
    u[i][j][Next(k, n)] + u[i][j][Prev(k, n)] -
    6.0 * u[i][j][k]
  }

  /** The 3D Laplacian at cell (i, j, k): the stencil sum over h2 = dx^2. */
  function Lap3Cell(u: Grid3, n: nat, h2: real, i: int, j: int, k: int): real
    requires IsCube(u, n) && 0 <= i < n && 0 <= j < n && 0 <= k < n && h2 != 0.0
  {
    Stencil3(u, n, i, j, k) / h2
  }

  function Lap3(u: Grid3, n: nat, h2: real): (r: Grid3)
    requires IsCube(u, n) && h2 != 0.0
    ensures IsCube(r, n)
  {
    seq(n, i requires 0 <= i < n =>
      seq(n, j requires 0 <= j < n =>
        seq(n, k requires 0 <= k < n => Lap3Cell(u, n, h2, i, j, k))))
  }

  // ---------------------------------------------------------------------
  // The Laplacian of a spatially constant field vanishes

  lemma {:induction false} Lap2OfConstant(u: Grid2, n: nat, h2: real, v: real)
    requires IsSquare(u, n) && h2 != 0.0
    requires forall i, j :: 0 <= i < n && 0 <= j < n ==> u[i][j] == v
    ensures forall i, j :: 0 <= i < n && 0 <= j < n ==> Lap2(u, n, h2)[i][j] == 0.0
  {
    forall i, j | 0 <= i < n && 0 <= j < n
      ensures Lap2(u, n, h2)[i][j] == 0.0
    {
      assert Lap2(u, n, h2)[i][j] == 0.0 / h2;
    }
  }

  lemma {:induction false} Lap3OfConstant(u: Grid3, n: nat, h2: real, v: real)
    requires IsCube(u, n) && h2 != 0.0
    requires forall i, j, k :: 0 <= i < n && 0 <= j < n && 0 <= k < n ==> u[i][j][k] == v
    ensures forall i, j, k :: 0 <= i < n && 0 <= j < n && 0 <= k < n ==> Lap3(u, n, h2)[i][j][k] == 0.0
  {
    forall i, j, k | 0 <= i < n && 0 <= j < n && 0 <= k < n
      ensures Lap3(u, n, h2)[i][j][k] == 0.0
    {
      assert Lap3(u, n, h2)[i][j][k] == 0.0 / h2;
    }
  }

  // ---------------------------------------------------------------------
  // The Laplacian has total zero: every wrapped shift permutes the cells

  lemma DivAdd(x: real, y: real, d: real)
    requires d != 0.0
    ensures x / d + y / d == (x + y) / d
  {
  }

  /** Dividing every cell by d divides the total by d. */
  lemma {:induction false} SumQuotient(v: seq<real>, d: real, r: seq<real>)
    requires d != 0.0 && |v| == |r|
    requires forall k :: 0 <= k < |r| ==> r[k] == v[k] / d
    ensures Sum(r) == Sum(v) / d
  {
    if |r| > 0 {
      SumQuotient(v[1..], d, r[1..]);
      DivAdd(v[0], Sum(v[1..]), d);
    }
  }

  /** The stencil sums of row i of a grid. */
  function StencilRow2(u: Grid2, n: nat, i: int): (r: seq<real>)
    requires IsSquare(u, n) && 0 <= i < n
    ensures |r| == n
  {
    seq(n, j requires 0 <= j < n => Stencil2(u, n, i, j))
  }

  /** Summing the stencil along row i collapses the j-axis terms, since the
      wrapped j-shifts only permute the row: what is left is the 1D stencil
      of the row totals. */
  lemma {:induction false} StencilRow2Sum(u: Grid2, n: nat, i: int)
    requires IsSquare(u, n) && 0 <= i < n
    ensures Sum(StencilRow2(u, n, i)) == Sum(u[Next(i, n)]) + Sum(u[Prev(i, n)]) - 2.0 * Sum(u[i])
  {
    var a, b, row := u[Next(i, n)], u[Prev(i, n)], u[i];
    var parts := Sub(Add(Add(Add(a, b), RotNext(row)), RotPrev(row)), Scale(4.0, row));
    assert StencilRow2(u, n, i) == parts;
    SumAdd(a, b);
    SumAdd(Add(a, b), RotNext(row));
    SumAdd(Add(Add(a, b), RotNext(row)), RotPrev(row));
    SumScale(4.0, row);
    SumSub(Add(Add(Add(a, b), RotNext(row)), RotPrev(row)), Scale(4.0, row));
    SumRotNext(row);
    SumRotPrev(row);
  }

  /** Row i of the 2D Laplacian totals the stencil sums of that row over
      h2. */
  lemma {:induction false} Lap2RowSum(u: Grid2, n: nat, h2: real, i: int)
    requires IsSquare(u, n) && h2 != 0.0 && 0 <= i < n
    ensures Sum(Lap2(u, n, h2)[i]) == Sum(StencilRow2(u, n, i)) / h2
  {
    SumQuotient(StencilRow2(u, n, i), h2, Lap2(u, n, h2)[i]);
  }

  /** The stencil sums of a grid add up to zero. */
  lemma {:induction false} Stencil2SumZero(u: Grid2, n: nat)
    requires IsSquare(u, n)
    ensures Sum(seq(n, i requires 0 <= i < n => Sum(StencilRow2(u, n, i)))) == 0.0
  {
    var rows := RowSums(u);
    var totals := seq(n, i requires 0 <= i < n => Sum(StencilRow2(u, n, i)));
    var nums := Sub(Add(RotNext(rows), RotPrev(rows)), Scale(2.0, rows));
    forall i | 0 <= i < n
      ensures totals[i] == nums[i]
    {
      StencilRow2Sum(u, n, i);
    }
    assert totals == nums;
    SumAdd(RotNext(rows), RotPrev(rows));
    SumScale(2.0, rows);
    SumSub(Add(RotNext(rows), RotPrev(rows)), Scale(2.0, rows));
    SumRotNext(rows);
    SumRotPrev(rows);
  }

  /** The cells of the 2D Laplacian add up to zero, for every field. */
  lemma {:induction false} Lap2SumZero(u: Grid2, n: nat, h2: real)
    requires IsSquare(u, n) && h2 != 0.0
    ensures Sum2(Lap2(u, n, h2)) == 0.0
  {
    var totals := seq(n, i requires 0 <= i < n => Sum(StencilRow2(u, n, i)));
    forall i | 0 <= i < n
      ensures RowSums(Lap2(u, n, h2))[i] == totals[i] / h2
    {
      Lap2RowSum(u, n, h2, i);
    }
    SumQuotient(totals, h2, RowSums(Lap2(u, n, h2)));
    Stencil2SumZero(u, n);
  }

  /** The line totals of a 3D grid: entry (i, j) is the total of u[i][j]. */
  function LineSums(u: Grid3, n: nat): (r: Grid2)
    requires IsCube(u, n)
    ensures IsSquare(r, n)
  {
    seq(n, i requires 0 <= i < n => RowSums(u[i]))
  }

  /** Summing the k-line (i, j) of the 3D Laplacian collapses the k-axis
      terms: what is left is the 2D Laplacian at (i, j) of the line totals. */
  lemma {:induction false} Lap3LineSum(u: Grid3, n: nat, h2: real, i: int, j: int)
    requires IsCube(u, n) && h2 != 0.0 && 0 <= i < n && 0 <= j < n
    ensures Sum(Lap3(u, n, h2)[i][j]) == Lap2Cell(LineSums(u, n), n, h2, i, j)
  {
    var nums := seq(n, k requires 0 <= k < n => Stencil3(u, n, i, j, k));
    assert Sum(nums) == Stencil2(LineSums(u, n), n, i, j) by {
      var line := u[i][j];
      var a, b := u[Next(i, n)][j], u[Prev(i, n)][j];
      var c, e := u[i][Next(j, n)], u[i][Prev(j, n)];
      var others := Add(Add(Add(a, b), c), e);
      assert Sum(others) == Sum(a) + Sum(b) + Sum(c) + Sum(e) by {
        SumAdd(a, b);
        SumAdd(Add(a, b), c);
        SumAdd(Add(Add(a, b), c), e);
      }
      var parts := Sub(Add(Add(others, RotNext(line)), RotPrev(line)), Scale(6.0, line));
      assert nums == parts;
      SumAdd(others, RotNext(line));
      SumAdd(Add(others, RotNext(line)), RotPrev(line));
      SumScale(6.0, line);
      SumSub(Add(Add(others, RotNext(line)), RotPrev(line)), Scale(6.0, line));
      SumRotNext(line);
      SumRotPrev(line);
    }
    SumQuotient(nums, h2, Lap3(u, n, h2)[i][j]);
  }

  /** The cells of the 3D Laplacian add up to zero, for every field. */
  lemma {:induction false} Lap3SumZero(u: Grid3, n: nat, h2: real)
    requires IsCube(u, n) && h2 != 0.0
    ensures Sum3(Lap3(u, n, h2)) == 0.0
  {
    var lines := LineSums(u, n);
    var lap := Lap3(u, n, h2);
    forall i | 0 <= i < n
      ensures SlabSums(lap)[i] == RowSums(Lap2(lines, n, h2))[i]
    {
      forall j | 0 <= j < n
        ensures RowSums(lap[i])[j] == Lap2(lines, n, h2)[i][j]
      {
        Lap3LineSum(u, n, h2, i, j);
      }
      assert RowSums(lap[i]) == Lap2(lines, n, h2)[i];
    }
    assert SlabSums(lap) == RowSums(Lap2(lines, n, h2));
    Lap2SumZero(lines, n, h2);
  }

  // ---------------------------------------------------------------------
  // The roll form

  /** Every row has the length of the first (a 2D ndarray). */
  predicate Rectangular(u: Grid2)
  {
    forall i :: 0 <= i < |u| ==> |u[i]| == |u[0]|
  }

  /** np.roll(u, shift, axis=0): row i of the result is row (i - shift) mod N. */
  function RollRows(u: Grid2, shift: int): (r: Grid2)
    ensures |r| == |u|
  {
    seq(|u|, i requires 0 <= i < |u| => u[(i - shift) % |u|])
  }

  /** np.roll(u, shift, axis=1): entry j of row i is entry (j - shift) mod M. */
  function RollCols(u: Grid2, shift: int): (r: Grid2)
    ensures |r| == |u|
  {
    seq(|u|, i requires 0 <= i < |u| =>
      seq(|u[i]|, j requires 0 <= j < |u[i]| => u[i][(j - shift) % |u[i]|]))
  }

  /** The Laplacian as a sum of four rolled copies minus four times the field
      (no division, i.e. dx = 1). */
  function RollLaplacian(u: Grid2): (r: Grid2)
    requires Rectangular(u)
    ensures |r| == |u| && forall i :: 0 <= i < |u| ==> |r[i]| == |u[i]|
  {
    var up, down, left, right := RollRows(u, 1), RollRows(u, -1), RollCols(u, 1), RollCols(u, -1);
    seq(|u|, i requires 0 <= i < |u| =>
      seq(|u[i]|, j requires 0 <= j < |u[i]| =>
        up[i][j] + down[i][j] + left[i][j] + right[i][j] - 4.0 * u[i][j]))
  }

  lemma {:induction false} RollCellIsStencil(u: Grid2, n: nat, i: int, j: int)
    requires IsSquare(u, n) && 0 <= i < n && 0 <= j < n
    ensures Rectangular(u)
    ensures RollLaplacian(u)[i][j] == Lap2Cell(u, n, 1.0, i, j)
  {
    assert RollRows(u, 1)[i] == u[Prev(i, n)];
    assert RollRows(u, -1)[i] == u[Next(i, n)];
    assert RollCols(u, 1)[i][j] == u[i][Prev(j, n)];
    assert RollCols(u, -1)[i][j] == u[i][Next(j, n)];
  }

  /** On a square grid the roll form and the 5-point stencil with dx = 1 agree
      in every cell, because np.roll(u, 1, axis=0)[i, j] = u[(i-1) % N, j]. */
  lemma {:induction false} RollLaplacianIsStencil(u: Grid2, n: nat)
    requires IsSquare(u, n)
    ensures Rectangular(u)
    ensures RollLaplacian(u) == Lap2(u, n, 1.0)
  {
    var r, l := RollLaplacian(u), Lap2(u, n, 1.0);
    forall i | 0 <= i < n
      ensures r[i] == l[i]
    {
      forall j | 0 <= j < n
        ensures r[i][j] == l[i][j]
      {
        RollCellIsStencil(u, n, i, j);
      }
    }
  }

  // ---------------------------------------------------------------------
  // The loop implementations over arrays

  /** Python's `x ** k` for a natural exponent k. */
  function Pow(x: real, k: nat): real
  {
    if k == 0 then 1.0 else x * Pow(x, k - 1)
  }

  /** A nonzero spacing has a nonzero square, so `val / dx**2` is defined. */
  lemma {:induction false} PowNonzero(x: real, k: nat)
    requires x != 0.0
    ensures Pow(x, k) != 0.0
  {
    if k > 0 {
      PowNonzero(x, k - 1);
      MulNonzero(x, Pow(x, k - 1));
    }
  }

  lemma MulNonzero(a: real, b: real)
    requires a != 0.0 && b != 0.0
    ensures a * b != 0.0
  {
  }

  ghost function View2(a: array2<real>): Grid2
    reads a
  {
    seq(a.Length0, i requires 0 <= i < a.Length0 reads a =>
      seq(a.Length1, j requires 0 <= j < a.Length1 reads a => a[i, j]))
  }

  ghost function View3(a: array3<real>): Grid3
    reads a
  {
    seq(a.Length0, i requires 0 <= i < a.Length0 reads a =>
      seq(a.Length1, j requires 0 <= j < a.Length1 reads a =>
        seq(a.Length2, k requires 0 <= k < a.Length2 reads a => a[i, j, k])))
  }

  lemma {:induction false} View2Equals(a: array2<real>, g: Grid2, n: nat)
    requires a.Length0 == a.Length1 == n && IsSquare(g, n)
    requires forall i, j :: 0 <= i < n && 0 <= j < n ==> a[i, j] == g[i][j]
    ensures View2(a) == g
  {
    forall i | 0 <= i < n
      ensures View2(a)[i] == g[i]
    {
    }
  }

  /** The stencil sum read straight off the array, over h2, is the
      Laplacian of the array's contents at that cell. */
  lemma {:induction false} Lap2OfArray(u: array2<real>, n: nat, h2: real, i: int, j: int)
    requires u.Length0 == u.Length1 == n && h2 != 0.0
    requires 0 <= i < n && 0 <= j < n
    ensures IsSquare(View2(u), n)
    ensures (u[(i + 1) % n, j] + u[(i - 1) % n, j] + u[i, (j + 1) % n] + u[i, (j - 1) % n] -
             4.0 * u[i, j]) / h2 == Lap2(View2(u), n, h2)[i][j]
  {
  }

  /** laplacian_2D with N = u.shape[0]: fills a fresh array cell by cell. */
  method Laplacian2D(u: array2<real>, dx: real) returns (lap: array2<real>)
    requires u.Length0 == u.Length1 && dx != 0.0
    ensures fresh(lap)
    ensures lap.Length0 == lap.Length1 == u.Length0
    ensures Pow(dx, 2) != 0.0
    ensures View2(lap) == Lap2(View2(u), u.Length0, Pow(dx, 2))
  {
    PowNonzero(dx, 2);
    var n := u.Length0;
    ghost var target := Lap2(View2(u), n, Pow(dx, 2));
    lap := new real[n, n];
    for i := 0 to n
      invariant forall p, q :: 0 <= p < i && 0 <= q < n ==> lap[p, q] == target[p][q]
    {
      for j := 0 to n
        invariant forall p, q :: 0 <= p < n && 0 <= q < n && (p < i || (p == i && q < j)) ==> lap[p, q] == target[p][q]
      {
        var val := u[(i + 1) % n, j] + u[(i - 1) % n, j] + u[i, (j + 1) % n] + u[i, (j - 1) % n] - 4.0 * u[i, j];
        Lap2OfArray(u, n, Pow(dx, 2), i, j);
        lap[i, j] := val / Pow(dx, 2);
      }
    }
    View2Equals(lap, target, n);
  }

  lemma {:induction false} View3Equals(a: array3<real>, g: Grid3, n: nat)
    requires a.Length0 == a.Length1 == a.Length2 == n && IsCube(g, n)
    requires forall i, j, k :: 0 <= i < n && 0 <= j < n && 0 <= k < n ==> a[i, j, k] == g[i][j][k]
    ensures View3(a) == g
  {
    forall i | 0 <= i < n
      ensures View3(a)[i] == g[i]
    {
      forall j | 0 <= j < n
        ensures View3(a)[i][j] == g[i][j]
      {
      }
    }
  }

  /** The stencil sum read straight off the array, over h2, is the
      Laplacian of the array's contents at that cell. */
  lemma {:induction false} Lap3OfArray(u: array3<real>, n: nat, h2: real, i: int, j: int, k: int)
    requires u.Length0 == u.Length1 == u.Length2 == n && h2 != 0.0
    requires 0 <= i < n && 0 <= j < n && 0 <= k < n
    ensures IsCube(View3(u), n)
    ensures (u[(i + 1) % n, j, k] + u[(i - 1) % n, j, k] +
             u[i, (j + 1) % n, k] + u[i, (j - 1) % n, k] +
             u[i, j, (k + 1) % n] + u[i, j, (k - 1) % n] -
             6.0 * u[i, j, k]) / h2 == Lap3(View3(u), n, h2)[i][j][k]
  {
  }

  /** The innermost loop of laplacian_3D: cells (i, j, 0) .. (i, j, n - 1)
      of lap receive the stencil value; no other cell changes. */
  method FillLine3(u: array3<real>, lap: array3<real>, h2: real, i: int, j: int)
    requires u.Length0 == u.Length1 == u.Length2 && h2 != 0.0
    requires lap.Length0 == lap.Length1 == lap.Length2 == u.Length0 && lap != u
    requires 0 <= i < u.Length0 && 0 <= j < u.Length0
    modifies lap
    ensures forall p, q, s :: 0 <= p < lap.Length0 && 0 <= q < lap.Length0 && 0 <= s < lap.Length0 && (p != i || q != j) ==>
      lap[p, q, s] == old(lap[p, q, s])
    ensures forall s :: 0 <= s < lap.Length0 ==> lap[i, j, s] == Lap3(View3(u), u.Length0, h2)[i][j][s]
  {
    var n := u.Length0;
    for k := 0 to n
      invariant forall p, q, s :: 0 <= p < n && 0 <= q < n && 0 <= s < n && (p != i || q != j || k <= s) ==>
        lap[p, q, s] == old(lap[p, q, s])
      invariant forall s :: 0 <= s < k ==> lap[i, j, s] == Lap3(View3(u), n, h2)[i][j][s]
    {
      var val := u[(i + 1) % n, j, k] + u[(i - 1) % n, j, k] +
                 u[i, (j + 1) % n, k] + u[i, (j - 1) % n, k] +
                 u[i, j, (k + 1) % n] + u[i, j, (k - 1) % n] -
                 6.0 * u[i, j, k];
      Lap3OfArray(u, n, h2, i, j, k);
      lap[i, j, k] := val / h2;
    }
  }

  /** laplacian_3D: fills a fresh array cell by cell. */
  method Laplacian3D(u: array3<real>, dx: real) returns (lap: array3<real>)
    requires u.Length0 == u.Length1 == u.Length2 && dx != 0.0
    ensures fresh(lap)
    ensures lap.Length0 == lap.Length1 == lap.Length2 == u.Length0
    ensures Pow(dx, 2) != 0.0
    ensures View3(lap) == Lap3(View3(u), u.Length0, Pow(dx, 2))
  {
    PowNonzero(dx, 2);
    var n := u.Length0;
    ghost var target := Lap3(View3(u), n, Pow(dx, 2));
    lap := new real[n, n, n];
    for i := 0 to n
      invariant forall p, q, s :: 0 <= p < i && 0 <= q < n && 0 <= s < n ==> lap[p, q, s] == target[p][q][s]
    {
      for j := 0 to n
        invariant forall p, q, s :: 0 <= p < n && 0 <= q < n && 0 <= s < n && (p < i || (p == i && q < j)) ==>
          lap[p, q, s] == target[p][q][s]
      {
        FillLine3(u, lap, Pow(dx, 2), i, j);
      }
    }
    View3Equals(lap, target, n);
  }

  // ---------------------------------------------------------------------
  // laplacian_2D as written: N = u.shape

  /** The value handed to `range`: an int, or a shape tuple. */
  datatype PyIndex = PyInt(value: int) | PyTuple(items: seq<int>)

  /** What a call of the 2D stencil routine produces: the Laplacian, or a
      failure because `range` cannot take the shape tuple. Compiled with
      `@njit`, that failure is numba's typing error on the first call, before
      any line of the body runs; without `@njit`, `range` raises TypeError.
      Either way no Laplacian is returned. */
  datatype Outcome = Computed(lap: Grid2) | RangeFailed

  /** The number of iterations of `for i in range(v)`; `range` does not
      accept a tuple (numba cannot type it; plain Python raises TypeError),
      modelled as None. */
  function RangeLength(v: PyIndex): (r: Option<nat>)
    ensures r.Some? <==> v.PyInt?
  {
    match v
    case PyInt(k) => Some(if k < 0 then 0 else k)
    case PyTuple(_) => None
  }


  /** The 2D stencil routine of physics.py with N bound to `size`, which is
      either the shape tuple of u or its first entry. */
  function Laplacian2DWith(u: Grid2, size: PyIndex, h2: real): (r: Outcome)
    requires IsSquare(u, |u|) && h2 != 0.0
    requires size.PyTuple? || size == PyInt(|u|)
    ensures r.Computed? <==> size.PyInt?
    ensures r.Computed? ==> r.lap == Lap2(u, |u|, h2)
  {
    match RangeLength(size)
    case None => RangeFailed
    case Some(count) => Computed(Lap2(u, count, h2))
  }

  /** As written, N is the shape tuple of u, so every call fails in `range`. */
  function Laplacian2DAsWritten(u: Grid2, h2: real): (r: Outcome)
    requires IsSquare(u, |u|) && h2 != 0.0
    ensures r == RangeFailed
  {
    Laplacian2DWith(u, PyTuple([|u|, |u|]), h2)
  }

  /** Concretely: the 4 x 4 zero grid has a Laplacian (all zeros), but the
      routine as written fails instead of returning it; with N = shape[0]
      it returns it. */
  lemma {:induction false} ShapeTupleBreaksLaplacian2D()
    ensures var zero := seq(4, _ => seq(4, _ => 0.0));
            IsSquare(zero, 4) &&
            Laplacian2DAsWritten(zero, 1.0) == RangeFailed &&
            Laplacian2DWith(zero, PyInt(4), 1.0) == Computed(Lap2(zero, 4, 1.0)) &&
            Lap2(zero, 4, 1.0)[0][0] == 0.0
  {
  }
}
