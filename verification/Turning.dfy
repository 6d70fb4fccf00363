/** Yaw angles in degrees: wrapping them, and turning the short way around. */
module Turning {
  import opened Steps

  function Abs(x: real): real {
    if x < 0.0 then -x else x
  }

  /** The remainder of a division by 360 that truncates toward zero. */
  function Remainder(x: real): (r: real)
    ensures -360.0 < r < 360.0
    ensures x >= 0.0 ==> 0.0 <= r
    ensures x <= 0.0 ==> r <= 0.0
    ensures r == x - 360.0 * Turns(x) as real
  {
    x - 360.0 * Turns(x) as real
  }

  function Turns(x: real): (n: int)
    ensures x >= 0.0 ==> n as real <= x / 360.0 < (n + 1) as real
    ensures x <= 0.0 ==> (n - 1) as real < x / 360.0 <= n as real
  {
    if x >= 0.0 then (x / 360.0).Floor else Ceiling(x / 360.0)
  }

  /** A yaw wrapped into [-180, 180). */
  function Normalized(yaw: real): (wrapped: real)
    ensures -180.0 <= wrapped < 180.0
  {
    var r := Remainder(yaw);
    if r >= 180.0 then r - 360.0 else if r < -180.0 then r + 360.0 else r
  }

  /** The turn from `yaw` to `target`, the short way around. */
  function ShortTurn(yaw: real, target: real): (delta: real)
    ensures -180.0 <= delta <= 180.0
  {
    var r := Remainder(target - yaw);
    if r > 180.0 then r - 360.0 else if r < -180.0 then r + 360.0 else r
  }

  /** One turn of at most `maxStep` degrees, and whether it arrived. */
  function TurnToward(yaw: real, target: real, maxStep: real): (r: (real, bool))
    ensures -180.0 <= r.0 < 180.0
  {
    var delta := ShortTurn(yaw, target);
    if Abs(delta) <= Abs(maxStep) then (Normalized(target), true)
    else (Normalized(yaw + if delta > 0.0 then Abs(maxStep) else -Abs(maxStep)), false)
  }

  // ---- The angle between two directions ----

  /** That many whole turns, in degrees. */
  function Whole(turns: int): real {
    360.0 * turns as real
  }

  /** Two yaws are the same direction. */
  ghost predicate SameDirection(a: real, b: real) {
    exists k: int :: a == b + Whole(k)
  }

  /** How far apart two directions are. */
  function Apart(a: real, b: real): real {
    Abs(ShortTurn(a, b))
  }

  lemma NormalizedIsSameDirection(yaw: real)
    ensures SameDirection(Normalized(yaw), yaw)
  {
    var r, n := Remainder(yaw), Turns(yaw);
    var k := -n + if r >= 180.0 then -1 else if r < -180.0 then 1 else 0;
    assert Normalized(yaw) == yaw + Whole(k);
  }

  lemma ShortTurnReaches(yaw: real, target: real)
    ensures SameDirection(yaw + ShortTurn(yaw, target), target)
  {
    var r, n := Remainder(target - yaw), Turns(target - yaw);
    var k := -n + if r > 180.0 then -1 else if r < -180.0 then 1 else 0;
    assert yaw + ShortTurn(yaw, target) == target + Whole(k);
  }

  /** Whole turns that differ by less than a turn are equal. */
  lemma SameWholeTurns(a: real, b: real, j: int, k: int)
    requires a + Whole(j) == b + Whole(k)
    requires -360.0 < a - b < 360.0
    ensures j == k && a == b
  {
    var d := j - k;
    assert b - a == Whole(d);
  }

  /** A turn of less than half a circle that reaches the target is the turn
      taken. */
  lemma ShortTurnIsUnique(yaw: real, target: real, delta: real)
    requires SameDirection(yaw + delta, target) && -180.0 < delta < 180.0
    ensures ShortTurn(yaw, target) == delta
  {
    ShortTurnReaches(yaw, target);
    var s := ShortTurn(yaw, target);
    var j: int :| yaw + delta == target + Whole(j);
    var k: int :| yaw + s == target + Whole(k);
    assert delta + Whole(k) == s + Whole(j);
    SameWholeTurns(delta, s, k, j);
  }

  /** No turn that reaches the target is shorter. */
  lemma ShortTurnIsShortest(yaw: real, target: real, delta: real)
    requires SameDirection(yaw + delta, target)
    ensures Apart(yaw, target) <= Abs(delta)
  {
    if -180.0 < delta < 180.0 {
      ShortTurnIsUnique(yaw, target, delta);
    }
  }

  lemma DirectionsCompose(a: real, b: real, c: real)
    requires SameDirection(a, b) && SameDirection(b, c)
    ensures SameDirection(a, c)
  {
    var j: int :| a == b + Whole(j);
    var k: int :| b == c + Whole(k);
    assert a == c + Whole(j + k);
  }

  lemma DirectionsShift(a: real, b: real, x: real)
    requires SameDirection(a, b)
    ensures SameDirection(a + x, b + x)
  {
    var k: int :| a == b + Whole(k);
    assert a + x == b + x + Whole(k);
  }

  // ---- Repeated turning ----

  /** A turn that does not arrive comes closer by exactly its step. */
  lemma StepComesCloser(yaw: real, target: real, step: real)
    requires step > 0.0 && !TurnToward(yaw, target, step).1
    ensures Apart(TurnToward(yaw, target, step).0, target) == Apart(yaw, target) - step
    ensures Apart(yaw, target) > step
  {
    hide ShortTurn, Normalized;
    var delta := ShortTurn(yaw, target);
    var moved := if delta > 0.0 then step else -step;
    var next := TurnToward(yaw, target, step).0;
    assert next == Normalized(yaw + moved);
    NormalizedIsSameDirection(yaw + moved);
    DirectionsShift(next, yaw + moved, delta - moved);
    ShortTurnReaches(yaw, target);
    assert yaw + moved + (delta - moved) == yaw + delta;
    DirectionsCompose(next + (delta - moved), yaw + delta, target);
    ShortTurnIsUnique(next, target, delta - moved);
  }

  /** The yaw after `n` turns toward the same target. */
  function Turned(yaw: real, target: real, step: real, n: nat): real {
    if n == 0 then yaw else TurnToward(Turned(yaw, target, step, n - 1), target, step).0
  }

  /** Before it arrives, each turn has come closer by one step. */
  lemma {:induction false} TurnedApart(yaw: real, target: real, step: real, n: nat)
    requires step > 0.0 && n < StepsToCover(Apart(yaw, target), step)
    ensures n > 0 ==> n as real * step < Apart(yaw, target)
    ensures Apart(Turned(yaw, target, step, n), target) == Apart(yaw, target) - n as real * step
  {
    hide ShortTurn, StepsToCover, TurnToward;
    if n > 0 {
      BeforeTheLast(n, Apart(yaw, target), step);
      TurnedApart(yaw, target, step, n - 1);
      OneMoreStep(n - 1, step);
      ArrivesIffNear(Turned(yaw, target, step, n - 1), target, step);
      StepComesCloser(Turned(yaw, target, step, n - 1), target, step);
    }
  }

  lemma ArrivesIffNear(yaw: real, target: real, step: real)
    requires step > 0.0
    ensures TurnToward(yaw, target, step).1 <==> Apart(yaw, target) <= step
  {
  }

  lemma NotThereYet(yaw: real, target: real, step: real, n: nat)
    requires step > 0.0 && 1 <= n < StepsToCover(Apart(yaw, target), step)
    ensures !TurnToward(Turned(yaw, target, step, n - 1), target, step).1
  {
    hide ShortTurn, StepsToCover, Normalized, Turned, TurnToward, Apart;
    TurnedApart(yaw, target, step, n - 1);
    ArrivesIffNear(Turned(yaw, target, step, n - 1), target, step);
    OneMoreStep(n - 1, step);
    BeforeTheLast(n, Apart(yaw, target), step);
  }

  lemma ThereAtLast(yaw: real, target: real, step: real, n: nat)
    requires step > 0.0 && n + 1 == StepsToCover(Apart(yaw, target), step)
    ensures TurnToward(Turned(yaw, target, step, n), target, step) == (Normalized(target), true)
  {
    hide ShortTurn, StepsToCover, Normalized, Turned, TurnToward, Apart;
    TurnedApart(yaw, target, step, n);
    ArrivesIffNear(Turned(yaw, target, step, n), target, step);
    OneMoreStep(n, step);
    StepsCover(Apart(yaw, target), step);
    ArrivingIsExact(Turned(yaw, target, step, n), target, step);
  }

  lemma ArrivingIsExact(yaw: real, target: real, step: real)
    requires TurnToward(yaw, target, step).1
    ensures TurnToward(yaw, target, step).0 == Normalized(target)
  {
  }

  /** Turning arrives in exactly max(1, ceil(distance / step)) turns: not
      before, and then at the target itself. */
  lemma TurningArrivesExactly(yaw: real, target: real, step: real, n: nat)
    requires step > 0.0 && 1 <= n <= StepsToCover(Apart(yaw, target), step)
    ensures TurnToward(Turned(yaw, target, step, n - 1), target, step).1
            <==> n == StepsToCover(Apart(yaw, target), step)
    ensures n == StepsToCover(Apart(yaw, target), step) ==>
              Turned(yaw, target, step, n) == Normalized(target) &&
              SameDirection(Turned(yaw, target, step, n), target)
  {
    hide ShortTurn, StepsToCover, Normalized, TurnToward, Apart;
    if n < StepsToCover(Apart(yaw, target), step) {
      NotThereYet(yaw, target, step, n);
    } else {
      ThereAtLast(yaw, target, step, n - 1);
      NormalizedIsSameDirection(target);
    }
  }

  // ---- Facing tasks ----

  const FACING_TOLERANCE: real := 5.0

  /** Whether a facing task is over after one more turn. */
  predicate Faced(yaw: real, ideal: real, step: real) {
    var (next, arrived) := TurnToward(yaw, ideal, step);
    arrived || Abs(Normalized(ideal - next)) <= FACING_TOLERANCE
  }

  /** On a standing monster a facing task is over by the turn that arrives, so
      it never turns forever. */
  lemma FacingFinishes(yaw: real, ideal: real, step: real)
    requires step > 0.0
    ensures exists n: nat ::
              n < StepsToCover(Apart(yaw, ideal), step) && Faced(Turned(yaw, ideal, step, n), ideal, step)
  {
    hide ShortTurn, StepsToCover, Normalized, Turned, TurnToward, Apart;
    var last := StepsToCover(Apart(yaw, ideal), step);
    TurningArrivesExactly(yaw, ideal, step, last);
    assert Faced(Turned(yaw, ideal, step, last - 1), ideal, step);
  }

  lemma ApartDependsOnDirection(a: real, b: real, target: real)
    requires SameDirection(a, b)
    ensures Apart(a, target) <= Apart(b, target)
  {
    hide ShortTurn;
    ShortTurnReaches(b, target);
    DirectionsShift(a, b, ShortTurn(b, target));
    DirectionsCompose(a + ShortTurn(b, target), b + ShortTurn(b, target), target);
    ShortTurnIsShortest(a, target, ShortTurn(b, target));
  }

  lemma DirectionsAreMutual(a: real, b: real)
    requires SameDirection(a, b)
    ensures SameDirection(b, a)
  {
    var k: int :| a == b + Whole(k);
    assert b == a + Whole(-k);
  }

  lemma NoTimeNoTurn(yaw: real, ideal: real)
    ensures TurnToward(yaw, ideal, 0.0).0 == if Apart(yaw, ideal) <= 0.0 then Normalized(ideal) else Normalized(yaw)
    ensures TurnToward(yaw, ideal, 0.0).1 <==> Apart(yaw, ideal) <= 0.0
  {
    hide ShortTurn, Normalized;
    var delta := ShortTurn(yaw, ideal);
    assert yaw + (if delta > 0.0 then Abs(0.0) else -Abs(0.0)) == yaw;
  }

  lemma RemainingIsApart(yaw: real, ideal: real)
    ensures Abs(Normalized(ideal - yaw)) == Apart(yaw, ideal)
  {
  }

  /** Without time to turn in, it finishes only where it already faces. */
  lemma FacingNeedsTime(yaw: real, ideal: real)
    ensures Faced(yaw, ideal, 0.0) <==> Apart(yaw, ideal) <= FACING_TOLERANCE
    ensures !Faced(yaw, ideal, 0.0) ==> Apart(TurnToward(yaw, ideal, 0.0).0, ideal) == Apart(yaw, ideal)
  {
    hide ShortTurn, Normalized, TurnToward, Apart;
    NoTimeNoTurn(yaw, ideal);
    var next := TurnToward(yaw, ideal, 0.0).0;
    RemainingIsApart(next, ideal);
    NormalizedIsSameDirection(yaw);
    DirectionsAreMutual(Normalized(yaw), yaw);
    ApartDependsOnDirection(Normalized(yaw), yaw, ideal);
    ApartDependsOnDirection(yaw, Normalized(yaw), ideal);
  }
}
