/**
 * The numeric vocabulary of the model.
 *
 * C `double` arithmetic is modelled over `real`. The C math library functions are
 * uninterpreted: a `Libm` value carries one function value per library routine, and
 * `Sound` lists the few facts of real trigonometry that the lemmas rely on.
 * Non-finite values matter only to the likelihood, which computes in `Double`.
 */
module Numerics {

  /** M_PI, as the C library defines it. */
  const Pi: real := 3.14159265358979323846

  /** The math-library routines the core calls, as uninterpreted functions.
      `quot(a, b)` is floating division `a / b`: `ExactDivision` pins it down for a
      non-zero divisor and leaves open the IEEE infinity or NaN of a zero one. */
  datatype Libm = Libm(
    exp: real -> real,
    log: real -> real,
    sin: real -> real,
    cos: real -> real,
    acos: real -> real,
    fmod: (real, real) -> real,
    quot: (real, real) -> real)

  /** Facts of real trigonometry and of C's `fmod` (the remainder keeps the sign of the
      dividend and is the dividend itself when that is already smaller than the divisor). */
  ghost predicate Sound(m: Libm) {
    && ExactDivision(m)
    && (forall x :: -1.0 <= m.sin(x) <= 1.0)
    && (forall x :: -1.0 <= m.cos(x) <= 1.0)
    && (forall x, y {:trigger m.sin(x), m.sin(y)} :: x + y == 0.0 ==> m.sin(x) == -m.sin(y))
    && (forall x, y {:trigger m.cos(x), m.cos(y)} :: x + y == 0.0 ==> m.cos(x) == m.cos(y))
    && (forall x, y {:trigger m.cos(x), m.cos(y)} :: x + y == 2.0 * Pi ==> m.cos(x) == m.cos(y))
    && m.sin(0.0) == 0.0 && m.cos(0.0) == 1.0 && m.exp(0.0) == 1.0
    && (forall x :: m.exp(x) > 0.0)
    && (forall x :: 0.0 <= m.acos(x) <= Pi)
    && (forall x {:trigger m.cos(m.acos(x))} :: -1.0 <= x <= 1.0 ==> m.cos(m.acos(x)) == x)
    && (forall x {:trigger m.acos(m.cos(x))} :: 0.0 <= x <= Pi ==> m.acos(m.cos(x)) == x)
    && (forall x, y :: y > 0.0 ==> -y < m.fmod(x, y) < y)
    && (forall x, y :: y > 0.0 && x >= 0.0 ==> m.fmod(x, y) >= 0.0)
    && (forall x, y :: y > 0.0 && x <= 0.0 ==> m.fmod(x, y) <= 0.0)
    && (forall x, y :: -y < x < y ==> m.fmod(x, y) == x)
  }

  /** The values at 0 that the model relies on: sin 0 = 0, cos 0 = 1, exp 0 = 1,
      acos 1 = 0, and fmod leaves 0 alone. */
  ghost predicate AtZero(m: Libm) {
    && m.sin(0.0) == 0.0 && m.cos(0.0) == 1.0 && m.exp(0.0) == 1.0
    && m.acos(1.0) == 0.0 && m.fmod(0.0, 2.0 * Pi) == 0.0
  }

  /** A library with the facts of Sound has those values at 0. */
  lemma SoundAtZero(m: Libm)
    requires Sound(m)
    ensures AtZero(m)
  {
    assert m.acos(m.cos(0.0)) == 0.0;
  }

  /** Division by a non-zero divisor gives the real quotient. */
  ghost predicate ExactDivision(m: Libm) {
    forall a, b :: b != 0.0 ==> m.quot(a, b) == a / b
  }

  /** Floating division `a / b`. */
  function Div(m: Libm, a: real, b: real): real {
    m.quot(a, b)
  }

  /** exp and log, as functions that methods call. */
  function Exp(m: Libm, x: real): real {
    m.exp(x)
  }

  function Log(m: Libm, x: real): real {
    m.log(x)
  }

  /** `std::abs` on a double. */
  function Abs(x: real): real {
    if x < 0.0 then -x else x
  }

  /** x squared, `x*x` or `pow(x, 2)` in the source. */
  function Sq(x: real): real {
    x * x
  }

  /** An IEEE double, seen only as finite, one of the two infinities, or NaN. */
  datatype Double = Finite(v: real) | PosInf | NegInf | NaN {
    predicate IsFinite() { Finite? }
  }

  /** Positive: +inf or a finite value above 0. */
  predicate IsPositive(d: Double) {
    d.PosInf? || (d.Finite? && d.v > 0.0)
  }

  /** IEEE addition (overflow of finite values is not modelled). */
  function Add(a: Double, b: Double): Double {
    if a.NaN? || b.NaN? then NaN
    else if a.Finite? && b.Finite? then Finite(a.v + b.v)
    else if (a.PosInf? && b.NegInf?) || (a.NegInf? && b.PosInf?) then NaN
    else if a.PosInf? || b.PosInf? then PosInf
    else NegInf
  }

  /** IEEE negation. */
  function Neg(a: Double): Double {
    match a
    case Finite(x) => Finite(-x)
    case PosInf => NegInf
    case NegInf => PosInf
    case NaN => NaN
  }

  /** IEEE subtraction. */
  function Sub(a: Double, b: Double): Double {
    Add(a, Neg(b))
  }

  /** IEEE multiplication: zero times an infinity is NaN. */
  function Mul(a: Double, b: Double): Double {
    if a.NaN? || b.NaN? then NaN
    else if a.Finite? && b.Finite? then Finite(a.v * b.v)
    else if (a.Finite? && a.v == 0.0) || (b.Finite? && b.v == 0.0) then NaN
    else if IsPositive(a) == IsPositive(b) then PosInf
    else NegInf
  }

  /** IEEE product of a non-zero constant c and d. */
  function Scale(c: real, d: Double): Double
    requires c != 0.0
  {
    match d
    case Finite(x) => Finite(c * x)
    case PosInf => if c > 0.0 then PosInf else NegInf
    case NegInf => if c > 0.0 then NegInf else PosInf
    case NaN => NaN
  }

  lemma ScaleIsMul(c: real, d: Double)
    requires c != 0.0
    ensures Scale(c, d) == Mul(Finite(c), d)
  {
  }

  /** IEEE quotient of two finite values; the divisor zero is the positive zero. */
  function Quot(a: real, b: real): Double {
    if b != 0.0 then Finite(a / b)
    else if a == 0.0 then NaN
    else if a > 0.0 then PosInf
    else NegInf
  }

  /** C `log` on a double: NaN below zero, -inf at zero. */
  function LogOf(m: Libm, d: Double): Double {
    match d
    case NaN => NaN
    case NegInf => NaN
    case PosInf => PosInf
    case Finite(x) => if x < 0.0 then NaN else if x == 0.0 then NegInf else Finite(m.log(x))
  }
}
