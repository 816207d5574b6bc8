/** Shared vocabulary: optional values, results with the Java exception that
    the source would throw, and Java's integer arithmetic where it differs
    from Dafny's. */
module Base {

  datatype Option<T> = None | Some(value: T)

  /** The exceptions the modelled Java code can raise. */
  datatype Failure =
    | DrivingCarException
    | IllegalArgumentException
    | PWMPulseOutsideLimitsException
    | HardwareInterfaceException
    | NullPointerException
    | IndexOutOfBoundsException
    | ArithmeticException
    | NumberFormatException

  /** The outcome of a Java call: a value, or the exception it throws. */
  datatype Result<T> = Ok(value: T) | Err(failure: Failure)

  /** The outcome of a Java call that returns nothing. */
  datatype Outcome = Pass | Fail(failure: Failure)

  const Int32Min: int := -0x8000_0000
  const Int32Max: int := 0x7FFF_FFFF

  predicate IsInt32(n: int) { Int32Min <= n <= Int32Max }

  function Abs(n: int): (r: nat)
    ensures r == n || r == -n
  {
    if n < 0 then -n else n
  }

  function Min(a: int, b: int): (r: int)
    ensures r <= a && r <= b && (r == a || r == b)
  {
    if a <= b then a else b
  }

  function Max(a: int, b: int): (r: int)
    ensures r >= a && r >= b && (r == a || r == b)
  {
    if a >= b then a else b
  }

  /** Java's `/` on int: the quotient rounded toward zero (Dafny's `/` is
      Euclidean, so the two differ when the numerator is negative). Its
      magnitude is |a| / |b| and its sign is the product of the signs. */
  function JavaDiv(a: int, b: int): int
    requires b != 0
  {
    if (a >= 0) == (b > 0) then Abs(a) / Abs(b) else -(Abs(a) / Abs(b))
  }

  /** The truncated quotient times the divisor lies within one divisor of
      the numerator, on the numerator's side of zero. */
  lemma JavaDivBounds(a: int, b: int)
    requires b > 0
    ensures Abs(a) - b < Abs(b * JavaDiv(a, b)) <= Abs(a)
    ensures a >= 0 ==> JavaDiv(a, b) >= 0
    ensures a <= 0 ==> JavaDiv(a, b) <= 0
  {
    var n: nat := Abs(a);
    var q := n / b;
    DivBounds(n, b);
    if a >= 0 {
      JavaDivPositive(a, b);
      assert b * JavaDiv(a, b) == q * b;
    } else {
      JavaDivNegative(a, b);
      assert b * JavaDiv(a, b) == -(q * b);
    }
  }

  /** The Euclidean quotient of a natural number by a positive divisor. */
  lemma DivBounds(n: nat, b: int)
    requires b > 0
    ensures 0 <= n / b && (n / b) * b <= n < (n / b) * b + b
  {
    var q, r := n / b, n % b;
    assert n == q * b + r;
    if q < 0 {
      MultipleOfPositive(q, b);
    }
  }

  /** Truncating division is monotone in its numerator for a positive divisor. */
  lemma {:induction false} JavaDivMonotone(a: int, c: int, b: int)
    requires b > 0 && a <= c
    ensures JavaDiv(a, b) <= JavaDiv(c, b)
  {
    if a >= 0 {
      JavaDivPositive(a, b);
      JavaDivPositive(c, b);
      DivMonotone(a, c, b);
    } else if c < 0 {
      JavaDivNegative(a, b);
      JavaDivNegative(c, b);
      DivMonotone(-c, -a, b);
    } else {
      JavaDivNegative(a, b);
      JavaDivPositive(c, b);
    }
  }

  /** For a positive divisor and a non-negative numerator Java agrees with Dafny. */
  lemma JavaDivPositive(a: int, b: int)
    requires a >= 0 && b > 0
    ensures JavaDiv(a, b) == a / b >= 0
  {
  }

  /** For a positive divisor and a negative numerator Java rounds up. */
  lemma JavaDivNegative(a: int, b: int)
    requires a < 0 && b > 0
    ensures JavaDiv(a, b) == -((-a) / b) <= 0
  {
  }

  lemma DivMonotone(a: nat, c: nat, b: int)
    requires b > 0 && a <= c
    ensures a / b <= c / b
  {
    var qa, qc := a / b, c / b;
    assert qa * b <= a && c < qc * b + b;
    assert (qa - qc - 1) * b < 0;
    SignOfProduct(qa - qc - 1, b);
  }

  lemma SignOfProduct(y: int, b: int)
    requires b > 0 && y * b < 0
    ensures y < 0
  {
  }

  /** Multiplying a non-negative number by a positive one and dividing back
      gives it again. */
  lemma MulDivCancel(a: nat, b: int)
    requires b > 0
    ensures (a * b) / b == a
  {
    var q, r := (a * b) / b, (a * b) % b;
    assert (a - q) * b == r by {
      assert a * b == q * b + r;
    }
    MultipleOfPositive(a - q, b);
  }

  /** A multiple of a positive number is negative for a negative factor and
      at least the number for a positive one. */
  lemma MultipleOfPositive(y: int, b: int)
    requires b > 0
    ensures y < 0 ==> y * b < 0
    ensures y >= 1 ==> y * b >= b
  {
  }

  /** Scaling by a factor between 0 and m keeps a non-negative base between 0
      and m times the base. */
  lemma ScaleBetween(base: nat, k: int, m: int)
    requires 0 <= k <= m
    ensures 0 <= base * k <= base * m
  {
  }

  /** Truncating division undoes an exact multiplication. */
  lemma JavaDivExact(a: int, b: int)
    requires b > 0
    ensures JavaDiv(a * b, b) == a
  {
    if a >= 0 {
      ScaleBetween(a, 0, b);
      MulDivCancel(a, b);
    } else {
      assert a * b == -((-a) * b);
      ScaleBetween(-a, 0, b);
      MulDivCancel(-a, b);
    }
  }
}
