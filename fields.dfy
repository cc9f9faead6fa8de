/** Concentration fields as the stepper sees them: the cells of a grid in
    row-major order, one exact real per cell, with the elementwise
    arithmetic that numpy applies to whole arrays. */
module Fields {

  /** The cells of one scalar field, in row-major (C) order. */
  type Field = seq<real>

  /** Total of all cells of a field. */
  function Sum(x: seq<real>): real
  {
    if |x| == 0 then 0.0 else x[0] + Sum(x[1..])
  }

  /** The field of `cells` cells that all hold `v` (a broadcast scalar). */
  function Const(cells: nat, v: real): (r: Field)
    ensures |r| == cells
  {
    seq(cells, _ => v)
  }

  function Add(x: Field, y: Field): (r: Field)
    requires |x| == |y|
    ensures |r| == |x|
  {
    seq(|x|, k requires 0 <= k < |x| => x[k] + y[k])
  }

  function Sub(x: Field, y: Field): (r: Field)
    requires |x| == |y|
    ensures |r| == |x|
  {
    seq(|x|, k requires 0 <= k < |x| => x[k] - y[k])
  }

  function Scale(c: real, x: Field): (r: Field)
    ensures |r| == |x|
  {
    seq(|x|, k requires 0 <= k < |x| => c * x[k])
  }

  /** Sum is linear: the total of a cellwise combination is the same
      combination of the totals. */
  lemma {:induction false} SumLinear(a: real, x: seq<real>, b: real, y: seq<real>, r: seq<real>)
    requires |x| == |y| == |r|
    requires forall k :: 0 <= k < |r| ==> r[k] == a * x[k] + b * y[k]
    ensures Sum(r) == a * Sum(x) + b * Sum(y)
  {
    if |r| > 0 {
      SumLinear(a, x[1..], b, y[1..], r[1..]);
    }
  }

  lemma {:induction false} SumAdd(x: Field, y: Field)
    requires |x| == |y|
    ensures Sum(Add(x, y)) == Sum(x) + Sum(y)
  {
    SumLinear(1.0, x, 1.0, y, Add(x, y));
  }

  lemma {:induction false} SumSub(x: Field, y: Field)
    requires |x| == |y|
    ensures Sum(Sub(x, y)) == Sum(x) - Sum(y)
  {
    SumLinear(1.0, x, -1.0, y, Sub(x, y));
  }

  lemma {:induction false} SumScale(c: real, x: Field)
    ensures Sum(Scale(c, x)) == c * Sum(x)
  {
    SumLinear(c, x, 0.0, x, Scale(c, x));
  }

  /** Scaling an all-zero field leaves it all zero. */
  lemma {:induction false} ScaleOfZero(c: real, x: Field)
    requires forall k :: 0 <= k < |x| ==> x[k] == 0.0
    ensures forall k :: 0 <= k < |x| ==> Scale(c, x)[k] == 0.0
  {
  }

  lemma {:induction false} SumConst(cells: nat, v: real)
    ensures Sum(Const(cells, v)) == cells as real * v
  {
    if cells > 0 {
      assert Const(cells, v)[1..] == Const(cells - 1, v);
      SumConst(cells - 1, v);
    }
  }

  /** The total of a concatenation is the sum of the totals. */
  lemma {:induction false} SumAppend(a: seq<real>, b: seq<real>)
    ensures Sum(a + b) == Sum(a) + Sum(b)
  {
    if |a| == 0 {
      assert a + b == b;
    } else {
      assert (a + b)[1..] == a[1..] + b;
      SumAppend(a[1..], b);
    }
  }
}
