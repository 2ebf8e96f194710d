/** The parts of java.lang.Math the fire-danger calculation relies on.
    Math.exp, Math.log and Math.pow are not evaluated: a caller supplies them
    as a MathLib, and the only fact assumed of them is that exp is positive. */
module Numerics {

  /** The positive reals: the range assumed of Math.exp. */
  newtype Positive = r: real | r > 0.0 witness 1.0

  /** The three transcendental functions, left uninterpreted. */
  datatype MathLib = MathLib(exp: real -> Positive, log: real -> real, pow: (real, real) -> real)
  {
    /** Math.exp: positive, and nothing more is known of it. */
    function Exp(x: real): (r: real)
      ensures r > 0.0
    {
      exp(x) as real
    }

    /** Math.log. */
    function Log(x: real): real
    {
      log(x)
    }

    /** Math.pow. */
    function Pow(x: real, y: real): real
    {
      pow(x, y)
    }
  }

  /** Math.min on doubles that are not NaN. */
  function Min(a: real, b: real): (r: real)
    ensures r <= a && r <= b
    ensures r == a || r == b
  {
    if a <= b then a else b
  }

  /** Math.max on doubles that are not NaN. */
  function Max(a: real, b: real): (r: real)
    ensures r >= a && r >= b
    ensures r == a || r == b
  {
    if a >= b then a else b
  }
}
