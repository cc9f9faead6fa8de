/** Periodic (wrap-around) addressing on an axis of length n: the neighbour
    indices `(i+1) % n` and `(i-1) % n` of the stencils. Python's `%` with a
    positive divisor floors, which for a positive n agrees with Dafny's
    Euclidean `%`. */
module Periodic {
  import opened Fields

  /** The "+1" neighbour of cell i: the next cell, except that the last cell
      wraps round to 0. */
  function Next(i: int, n: int): (r: int)
    requires 0 <= i < n
    ensures 0 <= r < n
    ensures r == if i == n - 1 then 0 else i + 1
  {
    (i + 1) % n
  }

  /** The "-1" neighbour of cell i: the previous cell, except that cell 0
      wraps round to n - 1. */
  function Prev(i: int, n: int): (r: int)
    requires 0 <= i < n
    ensures 0 <= r < n
    ensures r == if i == 0 then n - 1 else i - 1
  {
    (i - 1) % n
  }

  /** Next and Prev undo each other: the stencil reaches each neighbour
      exactly once, from both sides. */
  lemma NextPrevInverse(i: int, n: int)
    requires 0 <= i < n
    ensures Prev(Next(i, n), n) == i && Next(Prev(i, n), n) == i
  {
  }

  /** A row read through its "+1" neighbours: r[k] = s[(k+1) % |s|]. */
  function RotNext(s: seq<real>): (r: seq<real>)
    ensures |r| == |s|
  {
    seq(|s|, k requires 0 <= k < |s| => s[Next(k, |s|)])
  }

  /** A row read through its "-1" neighbours: r[k] = s[(k-1) % |s|]. */
  function RotPrev(s: seq<real>): (r: seq<real>)
    ensures |r| == |s|
  {
    seq(|s|, k requires 0 <= k < |s| => s[Prev(k, |s|)])
  }

  /** Shifting a periodic row by +1 is a rotation, so its total is unchanged. */
  lemma {:induction false} SumRotNext(s: seq<real>)
    ensures Sum(RotNext(s)) == Sum(s)
  {
    if |s| > 0 {
      assert RotNext(s) == s[1..] + [s[0]];
      SumAppend(s[1..], [s[0]]);
    }
  }

  /** Shifting a periodic row by -1 is a rotation, so its total is unchanged. */
  lemma {:induction false} SumRotPrev(s: seq<real>)
    ensures Sum(RotPrev(s)) == Sum(s)
  {
    if |s| > 0 {
      var n := |s|;
      assert RotPrev(s) == [s[n - 1]] + s[..n - 1];
      SumAppend([s[n - 1]], s[..n - 1]);
      assert s == s[..n - 1] + [s[n - 1]];
      SumAppend(s[..n - 1], [s[n - 1]]);
    }
  }
}
