/**
 * The floating-point library the evaluator calls, as uninterpreted
 * parameters: the constant PI, sine, cosine, tangent, base-10 logarithm,
 * `powf` and the conversion of a literal to a number. Every property proved
 * in this project holds for every choice of these functions.
 */
module Numerics {

  datatype Maths = Maths(
    pi: real,
    sin: real -> real,
    cos: real -> real,
    tan: real -> real,
    log10: real -> real,
    pow: (real, real) -> real,
    literal: string -> real)

  /** Number of `.` characters in a literal. */
  function DotCount(w: string): (n: nat)
    ensures n <= |w|
  {
    if w == [] then 0 else (if w[0] == '.' then 1 else 0) + DotCount(w[1..])
  }

  /**
   * A run of digits and dots that starts with a digit is accepted by
   * `str::parse::<f32>` exactly when it has at most one dot ("1." and "1.5"
   * parse, "1.2.3" does not).
   */
  predicate ValidLiteral(w: string) {
    DotCount(w) <= 1
  }
}
