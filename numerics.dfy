/**
 * The library routines the filter calls and the model does not define:
 * the C math functions and the two Eigen decompositions. They are handed to
 * the model as values, so every property proved holds whatever they return.
 */
module Numerics {

  import opened LinAlg

  datatype MathLib = MathLib(
    sin: real -> real,
    cos: real -> real,
    sqrt: real -> real,
    atan2: (real, real) -> real,
    /** Entry (i, j) of the lower Cholesky factor of M. */
    cholesky: Mat -> (nat, nat) -> real,
    /** Entry (i, j) of the inverse of M. */
    inverse: Mat -> (nat, nat) -> real)
}
