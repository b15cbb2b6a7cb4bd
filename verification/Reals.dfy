/** Arithmetic on reals, as backoff calculators use it. */
module Reals {
  function RealPower(x: real, n: nat): real {
    if n == 0 then 1.0 else x * RealPower(x, n - 1)
  }

  /** x times the n-th power of factor. */
  function Scaled(x: real, factor: real, n: nat): real {
    if n == 0 then x else factor * Scaled(x, factor, n - 1)
  }

  lemma Reordered(x: real, y: real, z: real)
    ensures x * (y * z) == y * (x * z)
  {
  }

  lemma {:induction false} ScaledIs(x: real, factor: real, n: nat)
    ensures Scaled(x, factor, n) == x * RealPower(factor, n)
  {
    if n > 0 {
      ScaledIs(x, factor, n - 1);
      Reordered(x, factor, RealPower(factor, n - 1));
    }
  }

  function Min(x: real, y: real): real {
    if y < x then y else x
  }

  function Max(x: real, y: real): real {
    if x < y then y else x
  }

  function Clamp(x: real, low: real, high: real): real {
    Max(Min(x, high), low)
  }

  /** A cast to an integer drops the fraction. */
  function Truncate(x: real): int {
    if x >= 0.0 then x.Floor else -(-x).Floor
  }
}
