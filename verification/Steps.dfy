/** Steps of time and angle, and how many equal ones a distance takes. */
module Steps {
  function AtLeastZero(x: real): real {
    if x > 0.0 then x else 0.0
  }

  function Ceiling(q: real): (n: int)
    ensures (n - 1) as real < q <= n as real
  {
    -((-q).Floor)
  }

  /** The least whole number of steps, and at least one, that covers a distance. */
  function StepsToCover(distance: real, step: real): (n: nat)
    requires step > 0.0
    ensures n >= 1
  {
    var least := Ceiling(distance / step);
    if least < 1 then 1 else least
  }

  lemma ScaleLess(a: real, b: real, step: real)
    requires step > 0.0
    ensures a < b <==> a * step < b * step
    ensures a <= b <==> a * step <= b * step
  {
    if a < b {
      assert (b - a) * step > 0.0;
    } else if b < a {
      assert (a - b) * step > 0.0;
    }
  }

  /** One step fewer than it takes does not cover a wait. */
  lemma FewerDoNotCover(distance: real, step: real, fewer: nat)
    requires step > 0.0 && fewer + 1 == StepsToCover(distance, step) && fewer > 0
    ensures fewer as real * step < distance
  {
    var q := distance / step;
    assert q * step == distance;
    assert fewer as real < q;
    ScaleLess(fewer as real, q, step);
  }

  lemma StepsCover(distance: real, step: real)
    requires step > 0.0
    ensures distance <= StepsToCover(distance, step) as real * step
  {
    var q := distance / step;
    assert q * step == distance;
    ScaleLess(q, StepsToCover(distance, step) as real, step);
  }

  lemma OneMoreStep(n: nat, step: real)
    ensures (n + 1) as real * step == n as real * step + step
  {
  }

  lemma BeforeTheLast(n: nat, distance: real, step: real)
    requires step > 0.0 && n < StepsToCover(distance, step) && StepsToCover(distance, step) > 1
    ensures 0.0 <= n as real * step < distance && distance > 0.0
  {
    hide StepsToCover;
    var fewer := StepsToCover(distance, step) - 1;
    FewerDoNotCover(distance, step, fewer);
    ScaleLess(n as real, fewer as real, step);
    ScaleLess(0.0, n as real, step);
  }
}
