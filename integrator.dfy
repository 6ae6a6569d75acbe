/** Forward (explicit) Euler: first order, fixed step, no error control. */
module Integrator {

  /** The state after a sub-step of length `dt` along the derivative `dx`. */
  function Euler(x: seq<real>, dx: seq<real>, dt: real): seq<real>
    requires |dx| == |x|
  {
    seq(|x|, i requires 0 <= i < |x| => x[i] + dt * dx[i])
  }

  /** `x += dt * dx`, in place on the binding's state buffer. */
  method ForwardEuler(x: array<real>, dx: array<real>, dt: real)
    requires x.Length == dx.Length && x != dx
    modifies x
    ensures x[..] == Euler(old(x[..]), dx[..], dt)
  {
    var i := 0;
    while i < x.Length
      invariant 0 <= i <= x.Length
      invariant forall k :: 0 <= k < i ==> x[k] == old(x[k]) + dt * dx[k]
      invariant forall k :: i <= k < x.Length ==> x[k] == old(x[k])
    {
      x[i] := x[i] + dt * dx[i];
      i := i + 1;
    }
    assert forall k :: 0 <= k < x.Length ==> x[..][k] == Euler(old(x[..]), dx[..], dt)[k];
  }

  /** The update keeps the length and moves each component by `dt` times its own
      derivative, and by nothing else. */
  lemma EulerComponentwise(x: seq<real>, dx: seq<real>, dt: real)
    requires |dx| == |x|
    ensures |Euler(x, dx, dt)| == |x|
    ensures forall i :: 0 <= i < |x| ==> Euler(x, dx, dt)[i] - x[i] == dt * dx[i]
  {
  }
}
