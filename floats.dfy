/** Floating-point values of a data frame, modelled over exact reals.
    A pandas NaN is `None`; every operation below propagates it the way
    IEEE-754 arithmetic does, and every comparison with it is false. One
    departure: `Div` makes a quotient by zero NaN, where IEEE-754 gives an
    infinity for a non-zero dividend. */
module Floats {

  datatype Option<+T> = None | Some(value: T)

  /** The quotient `a / b` of two frame values. A zero divisor yields NaN. */
  function Div(a: real, b: real): (r: Option<real>)
    ensures r.Some? <==> b != 0.0
    ensures r.Some? ==> r.value * b == a
  {
    if b == 0.0 then None else Some(a / b)
  }

  /** `c * a`, NaN when `a` is NaN. */
  function Scale(c: real, a: Option<real>): (r: Option<real>)
    ensures r.Some? <==> a.Some?
  {
    match a
    case None => None
    case Some(x) => Some(c * x)
  }

  /** `a + b`, NaN when either summand is NaN. */
  function Add(a: Option<real>, b: Option<real>): (r: Option<real>)
    ensures r.Some? <==> a.Some? && b.Some?
  {
    if a.Some? && b.Some? then Some(a.value + b.value) else None
  }

  function AbsReal(x: real): (r: real)
    ensures r >= 0.0 && (r == x || r == -x)
  {
    if x < 0.0 then -x else x
  }

  /** `abs(a)`, NaN when `a` is NaN. */
  function Abs(a: Option<real>): (r: Option<real>)
    ensures r.Some? <==> a.Some?
    ensures r.Some? ==> r.value >= 0.0
  {
    match a
    case None => None
    case Some(x) => Some(AbsReal(x))
  }

  /** `a > b`; false when `a` is NaN. */
  predicate Greater(a: Option<real>, b: real) {
    a.Some? && a.value > b
  }

  /** `a < b`; false when `a` is NaN. */
  predicate Less(a: Option<real>, b: real) {
    a.Some? && a.value < b
  }
}
