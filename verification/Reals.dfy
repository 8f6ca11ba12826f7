/** The capacity package's tolerant comparisons, over real numbers
    (internal/capacity/contracts.go). */
module Reals {
  const LARGEST: real := 1_000_000_000_000_000_000_000.0
  const RELATIVE: real := 0.000_000_001

  function Abs(x: real): real { if x < 0.0 then -x else x }
  function Max(x: real, y: real): real { if x < y then y else x }

  predicate Finite(x: real) { Abs(x) <= LARGEST }
  predicate FinitePositive(x: real) { Finite(x) && x > 0.0 }

  /** floatTolerance of one value. */
  function Slack(x: real): real { Max(1.0, Abs(x)) * RELATIVE }

  /** floatTolerance of two values. */
  function Tolerance(x: real, y: real): real { Max(Max(1.0, Abs(x)), Abs(y)) * RELATIVE }

  predicate Close(x: real, y: real)
  {
    Finite(x) && Finite(y) && Abs(x - y) <= Tolerance(x, y)
  }

  /** One of several values is near without being equal: what a tolerant
      comparison cannot tell apart. */
  predicate NearTie(x: real, y: real)
  {
    x != y && Close(x, y)
  }
}
