/** Why the generator's linear congruential step runs through every 64-bit
    state: the power-of-two case of the Hull-Dobell theorem (Knuth, The Art of
    Computer Programming, volume 2, section 3.2.1.2, Theorem A).

    The step is first studied over the unbounded integers, where iterating it
    is a geometric sum, and only then reduced modulo a power of two. */
module FullPeriod {
  import opened Arithmetic
  import opened Counting

  function Pow2(k: nat): (p: nat)
    ensures p >= 1
  {
    if k == 0 then 1 else 2 * Pow2(k - 1)
  }

  lemma {:induction false} Pow2Sum(j: nat, k: nat)
    ensures Pow2(j + k) == Pow2(j) * Pow2(k)
  {
    if j > 0 {
      Pow2Sum(j - 1, k);
    }
  }

  /** `n` steps of `x -> a * x + c`, without reduction. */
  function Walk(a: int, c: int, x: int, n: nat): int {
    if n == 0 then x else a * Walk(a, c, x, n - 1) + c
  }

  /** `1 + a + ... + a^(n-1)`. */
  function Geometric(a: int, n: nat): int {
    if n == 0 then 0 else a * Geometric(a, n - 1) + 1
  }

  /** How far a walk has drifted is a geometric sum times its first drift. */
  lemma {:induction false} WalkDrift(a: int, c: int, x: int, n: nat)
    ensures Walk(a, c, x, n) - x == Geometric(a, n) * ((a - 1) * x + c)
  {
    if n > 0 {
      WalkDrift(a, c, x, n - 1);
      DriftStep(a, c, x, Geometric(a, n - 1), Walk(a, c, x, n - 1));
    }
  }

  lemma DriftStep(a: int, c: int, x: int, g: int, w: int)
    requires w - x == g * ((a - 1) * x + c)
    ensures a * w + c - x == (a * g + 1) * ((a - 1) * x + c)
  {
    DriftIdentity(a, c, x, g);
  }

  lemma DriftIdentity(a: int, c: int, x: int, g: int)
    ensures a * (x + g * ((a - 1) * x + c)) + c - x == (a * g + 1) * ((a - 1) * x + c)
  {
  }

  lemma {:induction false} GeometricSum(a: int, m: nat, n: nat)
    ensures Geometric(a, m + n) == Geometric(a, n) + ((a - 1) * Geometric(a, n) + 1) * Geometric(a, m)
  {
    if m > 0 {
      GeometricSum(a, m - 1, n);
      assert m + n - 1 == m - 1 + n;
      GeometricIdentity(a, Geometric(a, n), Geometric(a, m - 1));
    }
  }

  lemma GeometricIdentity(a: int, g: int, h: int)
    ensures a * (g + ((a - 1) * g + 1) * h) + 1 == g + ((a - 1) * g + 1) * (a * h + 1)
  {
  }

  /** Doubling the number of terms multiplies the sum by twice an odd number,
      because the multiplier is 1 modulo 4. */
  lemma GeometricDoubles(a: int, b: int, h: nat) returns (t: int)
    requires a == 4 * b + 1
    ensures Geometric(a, 2 * h) == 2 * ((2 * t + 1) * Geometric(a, h))
  {
    GeometricSum(a, h, h);
    assert h + h == 2 * h;
    t := b * Geometric(a, h);
    DoublingIdentity(b, Geometric(a, h));
  }

  lemma DoublingIdentity(b: int, g: int)
    ensures g + (4 * b * g + 1) * g == 2 * ((2 * (b * g) + 1) * g)
  {
  }

  lemma {:induction false} GeometricParity(a: int, b: int, n: nat) returns (t: int)
    requires a == 4 * b + 1
    ensures Geometric(a, n) == 2 * t + n % 2
  {
    if n == 0 {
      t := 0;
    } else {
      var s := GeometricParity(a, b, n - 1);
      t := 2 * (b * Geometric(a, n - 1)) + s + (n - 1) % 2;
      ParityIdentity(b, Geometric(a, n - 1));
    }
  }

  lemma ParityIdentity(b: int, g: int)
    ensures (4 * b + 1) * g == 4 * (b * g) + g
  {
  }

  /** An odd factor does not help a power of two divide a product. */
  lemma {:induction false} OddFactorCancels(k: nat, t: int, s: int, q: int) returns (r: int)
    requires (2 * t + 1) * s == Pow2(k) * q
    ensures s == Pow2(k) * r
  {
    if k == 0 {
      r := s;
    } else {
      var p := Pow2(k - 1);
      OddFactorIdentity(t, s);
      Associate(2, p, q);
      var half := p * q - t * s;
      assert s == 2 * half;
      OddHalfIdentity(t, half, p * q);
      var r' := OddFactorCancels(k - 1, t, half, q);
      r := r';
      Associate(2, p, r);
    }
  }

  lemma OddFactorIdentity(t: int, s: int)
    ensures (2 * t + 1) * s == 2 * (t * s) + s
  {
  }

  lemma OddHalfIdentity(t: int, half: int, z: int)
    requires half == z - t * (2 * half)
    ensures (2 * t + 1) * half == z
  {
  }

  /** A power of two that divides the geometric sum divides its length. */
  lemma {:induction false} GeometricDivisibility(a: int, b: int, k: nat, n: nat, q: int) returns (m: int)
    requires a == 4 * b + 1
    requires Geometric(a, n) == Pow2(k) * q
    ensures n == Pow2(k) * m
  {
    if k == 0 {
      m := n;
    } else {
      var p := Pow2(k - 1);
      var s := GeometricParity(a, b, n);
      Associate(2, p, q);
      var h := n / 2;
      assert n == 2 * h;
      var t := GeometricDoubles(a, b, h);
      var r := OddFactorCancels(k - 1, t, Geometric(a, h), q);
      m := GeometricDivisibility(a, b, k - 1, h, r);
      Associate(2, p, m);
    }
  }

  /** The reduced step, and its iterates. */
  function Step(a: nat, c: nat, modulus: nat, x: nat): (y: nat)
    requires modulus > 0
    ensures y < modulus
  {
    (a * x + c) % modulus
  }

  function Orbit(a: nat, c: nat, modulus: nat, x: nat, n: nat): nat
    requires modulus > 0
  {
    if n == 0 then x else Step(a, c, modulus, Orbit(a, c, modulus, x, n - 1))
  }

  lemma {:induction false} OrbitShift(a: nat, c: nat, modulus: nat, x: nat, m: nat, n: nat)
    requires modulus > 0
    ensures Orbit(a, c, modulus, x, m + n) == Orbit(a, c, modulus, Orbit(a, c, modulus, x, m), n)
  {
    if n > 0 {
      OrbitShift(a, c, modulus, x, m, n - 1);
    }
  }

  lemma {:induction false} OrbitBelow(a: nat, c: nat, modulus: nat, x: nat, n: nat)
    requires x < modulus
    ensures Orbit(a, c, modulus, x, n) < modulus
  {
    if n > 0 {
      OrbitBelow(a, c, modulus, x, n - 1);
    }
  }

  /** The orbit is the unreduced walk up to a multiple of the modulus. */
  lemma {:induction false} OrbitIsWalk(a: nat, c: nat, modulus: nat, x: nat, n: nat) returns (q: int)
    requires modulus > 0
    ensures Walk(a, c, x, n) == Orbit(a, c, modulus, x, n) + modulus * q
  {
    if n == 0 {
      q := 0;
    } else {
      var p := OrbitIsWalk(a, c, modulus, x, n - 1);
      var o := Orbit(a, c, modulus, x, n - 1);
      q := StepIsWalk(a, c, modulus, o, p, Walk(a, c, x, n - 1));
    }
  }

  lemma StepIsWalk(a: nat, c: nat, modulus: nat, o: nat, p: int, w: int) returns (q: int)
    requires modulus > 0 && w == o + modulus * p
    ensures a * w + c == Step(a, c, modulus, o) + modulus * q
  {
    var z := a * o + c;
    QuotientRemainder(z, modulus);
    q := a * p + z / modulus;
    ReductionIdentity(a, o, modulus, p, c, z / modulus, z % modulus);
  }

  lemma ReductionIdentity(a: int, o: int, m: int, p: int, c: int, e: int, y: int)
    requires a * o + c == m * e + y
    ensures a * (o + m * p) + c == y + m * (a * p + e)
  {
    ReductionExpansion(a, o, m, p, e);
  }

  lemma ReductionExpansion(a: int, o: int, m: int, p: int, e: int)
    ensures a * (o + m * p) - a * o == m * (a * p + e) - m * e
  {
  }

  /** No state recurs before as many steps as there are states. */
  lemma NoEarlyReturn(k: nat, a: nat, c: nat, x: nat, n: nat)
    requires a % 4 == 1 && c % 2 == 1
    requires 0 < n < Pow2(k)
    ensures Orbit(a, c, Pow2(k), x, n) != x
  {
    if Orbit(a, c, Pow2(k), x, n) == x {
      var q := OrbitIsWalk(a, c, Pow2(k), x, n);
      WalkDrift(a, c, x, n);
      var b := a / 4;
      var t := 2 * (b * x) + c / 2;
      OddDrift(b, x, c / 2);
      Commute(2 * t + 1, Geometric(a, n));
      var r := OddFactorCancels(k, t, Geometric(a, n), q);
      var m := GeometricDivisibility(a, b, k, n, r);
      MultipleIsLarge(Pow2(k), m);
    }
  }

  lemma OddDrift(b: int, x: int, d: int)
    ensures 4 * b * x + (2 * d + 1) == 2 * (2 * (b * x) + d) + 1
  {
  }

  lemma OrbitInjective(k: nat, a: nat, c: nat, x: nat, i: nat, j: nat)
    requires a % 4 == 1 && c % 2 == 1
    requires i < j < Pow2(k)
    ensures Orbit(a, c, Pow2(k), x, i) != Orbit(a, c, Pow2(k), x, j)
  {
    OrbitShift(a, c, Pow2(k), x, i, j - i);
    NoEarlyReturn(k, a, c, Orbit(a, c, Pow2(k), x, i), j - i);
  }

  /** Hull-Dobell for powers of two: from any state, every state is reached
      within one period. */
  lemma OrbitReachesAll(k: nat, a: nat, c: nat, x: nat, y: nat)
    requires a % 4 == 1 && c % 2 == 1 && x < Pow2(k) && y < Pow2(k)
    ensures exists n: nat :: n < Pow2(k) && Orbit(a, c, Pow2(k), x, n) == y
  {
    var table := seq(Pow2(k), n requires 0 <= n < Pow2(k) => Orbit(a, c, Pow2(k), x, n));
    forall i, j | 0 <= i < j < |table| ensures table[i] != table[j] {
      OrbitInjective(k, a, c, x, i, j);
    }
    forall i | 0 <= i < |table| ensures table[i] < |table| {
      OrbitBelow(a, c, Pow2(k), x, i);
    }
    Onto(table, y);
    var n :| 0 <= n < |table| && table[n] == y;
    assert Orbit(a, c, Pow2(k), x, n) == y;
  }
}
