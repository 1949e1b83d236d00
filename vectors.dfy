/**
 * Element-wise arithmetic on real vectors: the numpy array operations
 * (`+`, `-`, multiplication and division by a scalar, `np.zeros`) that the
 * controller and the vehicle apply to vectors of one fixed length.
 */
module Vectors {

  /** `np.zeros((n,))`. */
  function Zeros(n: nat): (r: seq<real>)
    ensures |r| == n
    ensures forall i :: 0 <= i < n ==> r[i] == 0.0
  {
    seq(n, i => 0.0)
  }

  predicate IsZero(u: seq<real>) {
    forall i :: 0 <= i < |u| ==> u[i] == 0.0
  }

  function Add(u: seq<real>, w: seq<real>): (r: seq<real>)
    requires |u| == |w|
    ensures |r| == |u|
    ensures forall i :: 0 <= i < |u| ==> r[i] == u[i] + w[i]
  {
    seq(|u|, i requires 0 <= i < |u| => u[i] + w[i])
  }

  function Sub(u: seq<real>, w: seq<real>): (r: seq<real>)
    requires |u| == |w|
    ensures |r| == |u|
    ensures forall i :: 0 <= i < |u| ==> r[i] == u[i] - w[i]
  {
    seq(|u|, i requires 0 <= i < |u| => u[i] - w[i])
  }

  /** `u * c` for a scalar `c`. */
  function Scale(u: seq<real>, c: real): (r: seq<real>)
    ensures |r| == |u|
    ensures forall i :: 0 <= i < |u| ==> r[i] == u[i] * c
  {
    seq(|u|, i requires 0 <= i < |u| => u[i] * c)
  }

  /** `u / d` for a non-zero scalar `d`. */
  function Div(u: seq<real>, d: real): (r: seq<real>)
    requires d != 0.0
    ensures |r| == |u|
    ensures forall i :: 0 <= i < |u| ==> r[i] == u[i] / d
  {
    seq(|u|, i requires 0 <= i < |u| => u[i] / d)
  }
}
