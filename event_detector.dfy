/** State events: a zero crossing of an event indicator between two successive
    `getEventIndicators` calls, seen only at step boundaries (no root finding). */
module EventDetector {

  /** `np.any((prez * z) < 0)`. */
  function StateEvent(prez: seq<real>, z: seq<real>): (r: bool)
    requires |prez| == |z|
    ensures r <==> exists i :: 0 <= i < |z| && prez[i] * z[i] < 0.0
  {
    if z == [] then false
    else prez[0] * z[0] < 0.0 || StateEvent(prez[1..], z[1..])
  }

  /** The product of two reals is negative exactly when they have strictly opposite signs. */
  lemma NegativeProduct(a: real, b: real)
    ensures a * b < 0.0 <==> (a < 0.0 < b) || (b < 0.0 < a)
  {
    if a < 0.0 && b < 0.0 {
      assert (-a) * (-b) > 0.0;
    } else if a > 0.0 && b > 0.0 {
      assert a * b > 0.0;
    } else if a < 0.0 < b {
      assert a * b == -((-a) * b);
    } else if b < 0.0 < a {
      assert a * b == -(a * (-b));
    }
  }

  /** A state event is a strict sign change of some indicator; an indicator that is zero
      before or after the step never counts. */
  lemma StateEventIsSignChange(prez: seq<real>, z: seq<real>)
    requires |prez| == |z|
    ensures StateEvent(prez, z) <==>
      exists i :: 0 <= i < |z| && ((prez[i] < 0.0 < z[i]) || (z[i] < 0.0 < prez[i]))
  {
    forall i | 0 <= i < |z| {
      NegativeProduct(prez[i], z[i]);
    }
  }

  lemma ZeroNeverCrosses(prez: seq<real>, z: seq<real>)
    requires |prez| == |z|
    requires forall i :: 0 <= i < |z| ==> prez[i] == 0.0 || z[i] == 0.0
    ensures !StateEvent(prez, z)
  {
  }

  lemma StateEventExamples()
    ensures StateEvent([1.0], [-0.5])
    ensures !StateEvent([1.0], [0.5])
  {
    assert 1.0 * -0.5 < 0.0;
  }
}
