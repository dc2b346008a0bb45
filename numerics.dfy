/**
 * The numeric library the simulator calls: Math.sqrt, Math.sin, Math.cos,
 * Math.PI and Number.prototype.toFixed(4). They are kept abstract: a
 * `MathLib` value is handed to every oscillator, so nothing in the model
 * depends on how accurate these functions are. The laws below are the few
 * facts about them that some lemmas take as hypotheses; no definition of the
 * model assumes them.
 */
module Numerics {

  datatype MathLib = MathLib(
    sqrt: real -> real,
    sin: real -> real,
    cos: real -> real,
    pi: real,
    toFixed4: real -> string)

  /** sin 0 = 0 and cos 0 = 1. */
  predicate TrigAtZero(m: MathLib) {
    m.sin(0.0) == 0.0 && m.cos(0.0) == 1.0
  }

  /** sqrt is a square root on the non-negative reals. */
  ghost predicate SqrtSquares(m: MathLib) {
    forall x: real :: x >= 0.0 ==> m.sqrt(x) * m.sqrt(x) == x
  }

  /** sqrt of a positive number is positive. */
  ghost predicate SqrtPositive(m: MathLib) {
    forall x: real :: x > 0.0 ==> m.sqrt(x) > 0.0
  }

  /** sin and cos repeat after 2π. */
  ghost predicate Periodic(m: MathLib) {
    && (forall x: real, y: real :: y == x + 2.0 * m.pi ==> m.cos(y) == m.cos(x))
    && (forall x: real, y: real :: y == x + 2.0 * m.pi ==> m.sin(y) == m.sin(x))
  }

  /** cos never exceeds 1. */
  ghost predicate CosAtMostOne(m: MathLib) {
    forall x: real :: m.cos(x) <= 1.0
  }
}
