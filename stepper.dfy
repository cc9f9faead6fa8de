/** The explicit ternary Cahn-Hilliard step: the chemical potential of a
    phase, and one forward-Euler step of (c1, c2, c3) with the (2, -1, -1)
    coupling of the potentials' Laplacians and a source field A that feeds
    c2 only. Fields are flat (row-major) and the Laplacian is passed in as a
    choice among the three periodic operators, each applied with its
    default spacing dx = 1. */
module Stepper {
  import opened Fields
  import opened Grids
  import opened Laplacians

  /** The Laplacian handed to the step: the 5-point loop stencil, the
      7-point loop stencil, or the 5-point roll form, on a grid of side n. */
  datatype LapOp = Stencil2D(n: nat) | Stencil3D(n: nat) | Roll2D(n: nat)
  {
    /** Number of cells of a field this operator applies to. */
    function Cells(): nat
    {
      match this
      case Stencil2D(n) => n * n
      case Stencil3D(n) => n * n * n
      case Roll2D(n) => n * n
    }
  }

  /** `lap(x)`: read the flat field as a grid, apply the operator with
      dx = 1, lay the result out flat again. */
  function Apply(op: LapOp, x: Field): (r: Field)
    requires |x| == op.Cells()
    ensures |r| == |x|
  {
    match op
    case Stencil2D(n) =>
      var lap := Lap2(Unflatten2(x, n), n, 1.0);
      FlattenLength(lap, n);
      Flatten(lap)
    case Stencil3D(n) =>
      var lap := Lap3(Unflatten3(x, n), n, 1.0);
      Flatten3Length(lap, n);
      Flatten3(lap)
    case Roll2D(n) =>
      var u := Unflatten2(x, n);
      var lap := RollLaplacian(u);
      RollLaplacianIsStencil(u, n);
      FlattenLength(lap, n);
      Flatten(lap)
  }

  // ---------------------------------------------------------------------
  // Laws of the applied Laplacian

  /** The roll form and the 5-point stencil are the same operator. */
  lemma {:induction false} ApplyRollIsStencil(n: nat, x: Field)
    requires |x| == n * n
    ensures Apply(Roll2D(n), x) == Apply(Stencil2D(n), x)
  {
    RollLaplacianIsStencil(Unflatten2(x, n), n);
  }

  /** Every operator has total zero over the cells, whatever the field. */
  lemma {:induction false} ApplySumZero(op: LapOp, x: Field)
    requires |x| == op.Cells()
    ensures Sum(Apply(op, x)) == 0.0
  {
    match op
    case Stencil2D(n) =>
      SumFlatten(Lap2(Unflatten2(x, n), n, 1.0));
      Lap2SumZero(Unflatten2(x, n), n, 1.0);
    case Stencil3D(n) =>
      SumFlatten3(Lap3(Unflatten3(x, n), n, 1.0));
      Lap3SumZero(Unflatten3(x, n), n, 1.0);
    case Roll2D(n) =>
      ApplyRollIsStencil(n, x);
      SumFlatten(Lap2(Unflatten2(x, n), n, 1.0));
      Lap2SumZero(Unflatten2(x, n), n, 1.0);
  }

  /** Every operator maps a constant field to the zero field. */
  lemma {:induction false} ApplyOfConstant(op: LapOp, x: Field, v: real)
    requires |x| == op.Cells()
    requires forall k :: 0 <= k < |x| ==> x[k] == v
    ensures forall k :: 0 <= k < |x| ==> Apply(op, x)[k] == 0.0
  {
    match op
    case Stencil2D(n) =>
      ChunkUniform(x, n, n, v);
      Lap2OfConstant(Unflatten2(x, n), n, 1.0, v);
      FlattenUniform(Lap2(Unflatten2(x, n), n, 1.0), 0.0);
    case Stencil3D(n) =>
      Unflatten3Uniform(x, n, v);
      Lap3OfConstant(Unflatten3(x, n), n, 1.0, v);
      Flatten3Uniform(Lap3(Unflatten3(x, n), n, 1.0), 0.0);
    case Roll2D(n) =>
      ApplyRollIsStencil(n, x);
      ChunkUniform(x, n, n, v);
      Lap2OfConstant(Unflatten2(x, n), n, 1.0, v);
      FlattenUniform(Lap2(Unflatten2(x, n), n, 1.0), 0.0);
  }

  // ---------------------------------------------------------------------
  // Chemical potential

  /** The double-well derivative 2c(1 - c)(1 - 2c) at one concentration. */
  function Well(v: real): real
  {
    2.0 * v * (1.0 - v) * (1.0 - 2.0 * v)
  }

  /** The double-well part of the potential, cell by cell. */
  function DoubleWell(c: Field): (r: Field)
    ensures |r| == |c|
  {
    seq(|c|, k requires 0 <= k < |c| => Well(c[k]))
  }

  /** chem_potential(c, gamma, lap) = 2c(1 - c)(1 - 2c) - gamma * lap(c). */
  function ChemPotential(c: Field, gamma: real, op: LapOp): (r: Field)
    requires |c| == op.Cells()
    ensures |r| == |c|
  {
    Sub(DoubleWell(c), Scale(gamma, Apply(op, c)))
  }

  /** The gradient term carries no net amount: the potential totals the
      same as its double-well part. */
  lemma {:induction false} ChemPotentialSum(c: Field, gamma: real, op: LapOp)
    requires |c| == op.Cells()
    ensures Sum(ChemPotential(c, gamma, op)) == Sum(DoubleWell(c))
  {
    SumSub(DoubleWell(c), Scale(gamma, Apply(op, c)));
    ApplySumZero(op, c);
    SumScaleZero(gamma, Apply(op, c));
  }

  /** On a constant field the potential is the constant double-well value. */
  lemma {:induction false} ChemPotentialOfConstant(c: Field, gamma: real, op: LapOp, v: real)
    requires |c| == op.Cells()
    requires forall k :: 0 <= k < |c| ==> c[k] == v
    ensures forall k :: 0 <= k < |c| ==>
      ChemPotential(c, gamma, op)[k] == Well(v)
  {
    ApplyOfConstant(op, c, v);
    ScaleOfZero(gamma, Apply(op, c));
  }

  // ---------------------------------------------------------------------
  // The step

  /** The three phase fields of one state. */
  datatype Phases = Phases(c1: Field, c2: Field, c3: Field)

  /** c3 = 1 - c1 - c2: the third phase fills what the other two leave. */
  function Third(c1: Field, c2: Field): (r: Field)
    requires |c1| == |c2|
    ensures |r| == |c1|
  {
    Sub(Sub(Const(|c1|, 1.0), c1), c2)
  }

  /** In every cell the third phase and the other two add up to 1. */
  lemma {:induction false} ThirdFills(c1: Field, c2: Field)
    requires |c1| == |c2|
    ensures Partition(Phases(c1, c2, Third(c1, c2)), |c1|)
  {
  }

  /** The fields of a state all have the same number of cells, and the
      three phases add up to 1 in every cell. */
  predicate Partition(p: Phases, cells: nat)
  {
    |p.c1| == cells && |p.c2| == cells && |p.c3| == cells &&
    forall k :: 0 <= k < cells ==> p.c1[k] + p.c2[k] + p.c3[k] == 1.0
  }

  /** 2 lap(mu_a) - lap(mu_b) - lap(mu_c): the coupling that drives one
      phase. */
  function Coupled(la: Field, lb: Field, lc: Field): (r: Field)
    requires |la| == |lb| == |lc|
    ensures |r| == |la|
  {
    Sub(Sub(Scale(2.0, la), lb), lc)
  }

  /** The coupling of three zero-total fields has total zero. */
  lemma {:induction false} CoupledSum(la: Field, lb: Field, lc: Field)
    requires |la| == |lb| == |lc|
    ensures Sum(Coupled(la, lb, lc)) == 2.0 * Sum(la) - Sum(lb) - Sum(lc)
  {
    SumScale(2.0, la);
    SumSub(Scale(2.0, la), lb);
    SumSub(Sub(Scale(2.0, la), lb), lc);
  }

  /** The explicit Euler update c + dt * d. */
  function Euler(c: Field, dt: real, d: Field): (r: Field)
    requires |c| == |d|
    ensures |r| == |c|
  {
    Add(c, Scale(dt, d))
  }

  /** An explicit Euler update adds the total of the increment dt * d. */
  lemma {:induction false} EulerSum(c: Field, dt: real, d: Field)
    requires |c| == |d|
    ensures Sum(Euler(c, dt, d)) == Sum(c) + Sum(Scale(dt, d))
  {
    SumAdd(c, Scale(dt, d));
  }

  /** Scaling a sum of two fields scales each part. */
  lemma {:induction false} SumScaleAdd(c: real, x: Field, y: Field)
    requires |x| == |y|
    ensures Sum(Scale(c, Add(x, y))) == Sum(Scale(c, x)) + Sum(Scale(c, y))
  {
    SumLinear(c, x, c, y, Scale(c, Add(x, y)));
    SumScale(c, x);
    SumScale(c, y);
  }

  /** Scaling a field of total zero leaves total zero. */
  lemma {:induction false} SumScaleZero(c: real, x: Field)
    requires Sum(x) == 0.0
    ensures Sum(Scale(c, x)) == 0.0
  {
    SumScale(c, x);
  }

  /** The Laplacians of the three chemical potentials of a state. */
  datatype Drive = Drive(l1: Field, l2: Field, l3: Field)

  /** lap(mu1), lap(mu2), lap(mu3) for c3 = 1 - c1 - c2; each has total
      zero. */
  function PotentialLaplacians(c1: Field, c2: Field, gamma: real, op: LapOp): (r: Drive)
    requires |c1| == op.Cells() && |c2| == |c1|
    ensures |r.l1| == |c1| && |r.l2| == |c1| && |r.l3| == |c1|
    ensures Sum(r.l1) == 0.0 && Sum(r.l2) == 0.0 && Sum(r.l3) == 0.0
  {
    var c3 := Third(c1, c2);
    var mu1 := ChemPotential(c1, gamma, op);
    var mu2 := ChemPotential(c2, gamma, op);
    var mu3 := ChemPotential(c3, gamma, op);
    ApplySumZero(op, mu1);
    ApplySumZero(op, mu2);
    ApplySumZero(op, mu3);
    Drive(Apply(op, mu1), Apply(op, mu2), Apply(op, mu3))
  }

  /** CH_step(c1, c2, gamma, lap, dt, A). A scalar source term is the
      constant field Const(cells, A). */
  function CHStep(c1: Field, c2: Field, gamma: real, op: LapOp, dt: real, a: Field): (r: Phases)
    requires |c1| == op.Cells() && |c2| == |c1| && |a| == |c1|
    ensures |r.c1| == |c1| && |r.c2| == |c1| && r.c3 == Third(r.c1, r.c2)
  {
    var l := PotentialLaplacians(c1, c2, gamma, op);
    var c1New := Euler(c1, dt, Coupled(l.l1, l.l2, l.l3));
    var c2New := Euler(c2, dt, Add(Coupled(l.l2, l.l1, l.l3), a));
    Phases(c1New, c2New, Third(c1New, c2New))
  }

  /** After a step the three phases still add up to 1 in every cell, for
      any inputs and any source. */
  lemma {:induction false} StepPartition(c1: Field, c2: Field, gamma: real, op: LapOp, dt: real, a: Field)
    requires |c1| == op.Cells() && |c2| == |c1| && |a| == |c1|
    ensures Partition(CHStep(c1, c2, gamma, op, dt, a), |c1|)
  {
    var r := CHStep(c1, c2, gamma, op, dt, a);
    ThirdFills(r.c1, r.c2);
  }

  /** A step of length zero changes nothing. */
  lemma {:induction false} ZeroStepIsIdentity(c1: Field, c2: Field, gamma: real, op: LapOp, a: Field)
    requires |c1| == op.Cells() && |c2| == |c1| && |a| == |c1|
    ensures CHStep(c1, c2, gamma, op, 0.0, a) == Phases(c1, c2, Third(c1, c2))
  {
    var r := CHStep(c1, c2, gamma, op, 0.0, a);
    assert r.c1 == c1;
    assert r.c2 == c2;
  }

  /** The step conserves the total of c1; the source moves the total of
      dt * A (that is dt * sum(A), by SumScale) from c3 into c2. */
  lemma {:induction false} StepMass(c1: Field, c2: Field, gamma: real, op: LapOp, dt: real, a: Field)
    requires |c1| == op.Cells() && |c2| == |c1| && |a| == |c1|
    ensures Sum(CHStep(c1, c2, gamma, op, dt, a).c1) == Sum(c1)
    ensures Sum(CHStep(c1, c2, gamma, op, dt, a).c2) == Sum(c2) + Sum(Scale(dt, a))
    ensures Sum(CHStep(c1, c2, gamma, op, dt, a).c3) == Sum(Third(c1, c2)) - Sum(Scale(dt, a))
  {
    var l := PotentialLaplacians(c1, c2, gamma, op);
    var d1, e2 := Coupled(l.l1, l.l2, l.l3), Coupled(l.l2, l.l1, l.l3);
    CoupledSum(l.l1, l.l2, l.l3);
    CoupledSum(l.l2, l.l1, l.l3);
    SumScaleZero(dt, d1);
    SumScaleZero(dt, e2);
    SumScaleAdd(dt, e2, a);
    EulerSum(c1, dt, d1);
    EulerSum(c2, dt, Add(e2, a));
    ThirdSum(Euler(c1, dt, d1), Euler(c2, dt, Add(e2, a)));
    ThirdSum(c1, c2);
  }

  /** The total of c2 grows by exactly dt * sum(A). */
  lemma {:induction false} StepSourceTotal(c1: Field, c2: Field, gamma: real, op: LapOp, dt: real, a: Field)
    requires |c1| == op.Cells() && |c2| == |c1| && |a| == |c1|
    ensures Sum(CHStep(c1, c2, gamma, op, dt, a).c2) - Sum(c2) == dt * Sum(a)
  {
    StepMass(c1, c2, gamma, op, dt, a);
    SumScale(dt, a);
  }

  /** The total of c3 is the cell count less the totals of c1 and c2. */
  lemma {:induction false} ThirdSum(c1: Field, c2: Field)
    requires |c1| == |c2|
    ensures Sum(Third(c1, c2)) == |c1| as real - Sum(c1) - Sum(c2)
  {
    SumConst(|c1|, 1.0);
    SumSub(Const(|c1|, 1.0), c1);
    SumSub(Sub(Const(|c1|, 1.0), c1), c2);
  }

  /** An Euler update by an all-zero increment changes nothing. */
  lemma {:induction false} EulerOfZero(c: Field, dt: real, d: Field)
    requires |c| == |d| && forall k :: 0 <= k < |d| ==> d[k] == 0.0
    ensures Euler(c, dt, d) == c
  {
  }

  /** Every cell of a potential of a uniform field holds the same value, so
      its Laplacian vanishes. */
  lemma {:induction false} LapPotentialOfUniform(c: Field, gamma: real, op: LapOp, v: real)
    requires |c| == op.Cells()
    requires forall k :: 0 <= k < |c| ==> c[k] == v
    ensures forall k :: 0 <= k < |c| ==> Apply(op, ChemPotential(c, gamma, op))[k] == 0.0
  {
    var mu := ChemPotential(c, gamma, op);
    if |c| > 0 {
      ChemPotentialOfConstant(c, gamma, op, v);
      ApplyOfConstant(op, mu, mu[0]);
    }
  }

  /** With no source, a spatially uniform state is a fixed point of the
      step (in particular c1 = c2 = c3 = 1/3). */
  lemma {:induction false} UniformFixedPoint(c1: Field, c2: Field, gamma: real, op: LapOp, dt: real, a: Field, v1: real, v2: real)
    requires |c1| == op.Cells() && |c2| == |c1| && |a| == |c1|
    requires forall k :: 0 <= k < |c1| ==> c1[k] == v1 && c2[k] == v2 && a[k] == 0.0
    ensures CHStep(c1, c2, gamma, op, dt, a) == Phases(c1, c2, Third(c1, c2))
  {
    var c3 := Third(c1, c2);
    LapPotentialOfUniform(c1, gamma, op, v1);
    LapPotentialOfUniform(c2, gamma, op, v2);
    LapPotentialOfUniform(c3, gamma, op, 1.0 - v1 - v2);
    var l := PotentialLaplacians(c1, c2, gamma, op);
    EulerOfZero(c1, dt, Coupled(l.l1, l.l2, l.l3));
    EulerOfZero(c2, dt, Add(Coupled(l.l2, l.l1, l.l3), a));
  }
}
