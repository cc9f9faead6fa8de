/** The 2D animation script's own copy of the step: the two concentration
    fields held as mutable state, advanced `saveEvery` times per frame by
    in-place updates that inline the Cahn-Hilliard step with the roll
    Laplacian (dx = 1) and the source A = 0.01 * c3. */
module Attempt {
  import opened Fields
  import opened Stepper

  /** The rate of the source that feeds c2 from c3. */
  const SourceRate: real := 0.01

  /** One inner iteration, as a whole-field function: CH_step with the
      Laplacian `op` (the roll Laplacian in the script) and A = 0.01 * c3 for
      the iteration-start c3. */
  function AttemptStep(op: LapOp, gamma: real, dt: real, c1: Field, c2: Field): (r: Phases)
    requires |c1| == op.Cells() && |c2| == |c1|
    ensures |r.c1| == |c1| && |r.c2| == |c1| && r.c3 == Third(r.c1, r.c2)
  {
    CHStep(c1, c2, gamma, op, dt, Scale(SourceRate, Third(c1, c2)))
  }

  /** The state after k inner iterations from (c1, c2). */
  function Run(op: LapOp, gamma: real, dt: real, c1: Field, c2: Field, k: nat): (r: Phases)
    requires |c1| == op.Cells() && |c2| == |c1|
    ensures |r.c1| == |c1| && |r.c2| == |c1| && r.c3 == Third(r.c1, r.c2)
    decreases k
  {
    if k == 0 then Phases(c1, c2, Third(c1, c2))
    else
      var p := Run(op, gamma, dt, c1, c2, k - 1);
      AttemptStep(op, gamma, dt, p.c1, p.c2)
  }

  /** Each inner iteration keeps the total of c1, raises the total of c2
      by the total of dt * 0.01 * c3 (c3 at the start of the iteration),
      and lowers that of c3 by as much. */
  lemma {:induction false} AttemptStepMass(op: LapOp, gamma: real, dt: real, c1: Field, c2: Field)
    requires |c1| == op.Cells() && |c2| == |c1|
    ensures Sum(AttemptStep(op, gamma, dt, c1, c2).c1) == Sum(c1)
    ensures Sum(AttemptStep(op, gamma, dt, c1, c2).c2) == Sum(c2) + Sum(Scale(dt, Scale(SourceRate, Third(c1, c2))))
    ensures Sum(AttemptStep(op, gamma, dt, c1, c2).c3) == Sum(Third(c1, c2)) - Sum(Scale(dt, Scale(SourceRate, Third(c1, c2))))
  {
    StepMass(c1, c2, gamma, op, dt, Scale(SourceRate, Third(c1, c2)));
  }

  /** One more iteration is one more step from the state reached. */
  lemma {:induction false} RunSucc(op: LapOp, gamma: real, dt: real, c1: Field, c2: Field, k: nat)
    requires |c1| == op.Cells() && |c2| == |c1|
    ensures Run(op, gamma, dt, c1, c2, k + 1)
         == AttemptStep(op, gamma, dt, Run(op, gamma, dt, c1, c2, k).c1, Run(op, gamma, dt, c1, c2, k).c2)
  {
  }

  /** The inner iteration of `update`, written out the way the script
      computes it (c3, the three potentials, then the two increments), is
      the step AttemptStep. */
  lemma {:induction false} IterationIsAttemptStep(op: LapOp, gamma: real, dt: real, c1: Field, c2: Field, mu1: Field, mu2: Field, mu3: Field)
    requires |c1| == op.Cells() && |c2| == |c1|
    requires mu1 == Sub(DoubleWell(c1), Scale(gamma, Apply(op, c1)))
    requires mu2 == Sub(DoubleWell(c2), Scale(gamma, Apply(op, c2)))
    requires mu3 == Sub(DoubleWell(Third(c1, c2)), Scale(gamma, Apply(op, Third(c1, c2))))
    ensures |mu1| == |c1| && |mu2| == |c1| && |mu3| == |c1|
    ensures AttemptStep(op, gamma, dt, c1, c2).c1
         == Add(c1, Scale(dt, Sub(Sub(Scale(2.0, Apply(op, mu1)), Apply(op, mu2)), Apply(op, mu3))))
    ensures AttemptStep(op, gamma, dt, c1, c2).c2
         == Add(c2, Scale(dt, Add(Sub(Sub(Scale(2.0, Apply(op, mu2)), Apply(op, mu1)), Apply(op, mu3)), Scale(SourceRate, Third(c1, c2)))))
  {
  }

  /** Any number of inner iterations keeps the total of c1. */
  lemma {:induction false} RunConservesC1(op: LapOp, gamma: real, dt: real, c1: Field, c2: Field, k: nat)
    requires |c1| == op.Cells() && |c2| == |c1|
    ensures Sum(Run(op, gamma, dt, c1, c2, k).c1) == Sum(c1)
  {
    for i := 0 to k
      invariant Sum(Run(op, gamma, dt, c1, c2, i).c1) == Sum(c1)
    {
      var p := Run(op, gamma, dt, c1, c2, i);
      RunSucc(op, gamma, dt, c1, c2, i);
      AttemptStepMass(op, gamma, dt, p.c1, p.c2);
    }
  }

  /** `steps // save_every`: the number of frames, i.e. the largest count
      of whole frames that fits in the steps. */
  function TotalFrames(steps: int, saveEvery: int): (r: int)
    requires saveEvery > 0
    ensures r * saveEvery <= steps < (r + 1) * saveEvery
  {
    steps / saveEvery
  }

  /** The simulation state of the script: the grid side, the parameters
      and the two fields that `update` advances in place. */
  class Simulation {
    const n: nat
    const op: LapOp
    const gamma: real
    const dt: real
    const saveEvery: nat
    var c1: Field
    var c2: Field

    /** Both fields cover the N x N grid. */
    ghost predicate Valid()
      reads this
    {
      |c1| == op.Cells() && |c2| == |c1|
    }

    constructor (n: nat, gamma: real, dt: real, saveEvery: nat, c1: Field, c2: Field)
      requires |c1| == n * n && |c2| == n * n
      ensures this.n == n && this.op == Roll2D(n) && this.gamma == gamma && this.dt == dt && this.saveEvery == saveEvery
      ensures this.c1 == c1 && this.c2 == c2
      ensures Valid()
    {
      this.n := n;
      this.op := Roll2D(n);
      this.gamma := gamma;
      this.dt := dt;
      this.saveEvery := saveEvery;
      this.c1 := c1;
      this.c2 := c2;
    }

    /** One pass of the loop body of `update`: c3, the three Laplacians and
        potentials are computed from the fields as they are, then c1 and c2
        are incremented in place. */
    method Iterate()
      requires Valid()
      modifies this
      ensures Valid()
      ensures Phases(c1, c2, Third(c1, c2)) == AttemptStep(op, gamma, dt, old(c1), old(c2))
    {
      var c3 := Third(c1, c2);
      var c1Laplace := Apply(op, c1);
      var c2Laplace := Apply(op, c2);
      var c3Laplace := Apply(op, c3);
      var mu1 := Sub(DoubleWell(c1), Scale(gamma, c1Laplace));
      var mu2 := Sub(DoubleWell(c2), Scale(gamma, c2Laplace));
      var mu3 := Sub(DoubleWell(c3), Scale(gamma, c3Laplace));
      IterationIsAttemptStep(op, gamma, dt, c1, c2, mu1, mu2, mu3);
      c1 := Add(c1, Scale(dt, Sub(Sub(Scale(2.0, Apply(op, mu1)), Apply(op, mu2)), Apply(op, mu3))));
      c2 := Add(c2, Scale(dt, Add(Sub(Sub(Scale(2.0, Apply(op, mu2)), Apply(op, mu1)), Apply(op, mu3)), Scale(SourceRate, c3))));
    }

    /** update(frame_idx): saveEvery passes of the loop body, then c3 is
        recomputed and the frame's time returned with it. */
    method Update(frameIdx: nat) returns (c3: Field, time: real)
      requires Valid()
      modifies this
      ensures Valid()
      ensures Phases(c1, c2, c3) == Run(op, gamma, dt, old(c1), old(c2), saveEvery)
      ensures Partition(Phases(c1, c2, c3), |c1|)
      ensures time == (frameIdx * saveEvery) as real * dt
    {
      for step := 0 to saveEvery
        invariant Valid()
        invariant Phases(c1, c2, Third(c1, c2)) == Run(op, gamma, dt, old(c1), old(c2), step)
      {
        RunSucc(op, gamma, dt, old(c1), old(c2), step);
        Iterate();
      }
      c3 := Third(c1, c2);
      ThirdFills(c1, c2);
      time := (frameIdx * saveEvery) as real * dt;
    }
  }
}
