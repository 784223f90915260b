// Small building blocks shared by every module.

module Common {

  datatype Option<+T> = None | Some(value: T)

  datatype Result<+T, +E> = Ok(value: T) | Err(error: E)

  function Min(a: int, b: int): int {
    if a <= b then a else b
  }

  function Abs(x: real): real {
    if x < 0.0 then -x else x
  }

  function MaxReal(a: real, b: real): real {
    if a >= b then a else b
  }

  // Rounding as Python does it: half goes to the even neighbour.
  function Rounded(x: real): int {
    var below := x.Floor;
    var rest := x - below as real;
    if rest < 0.5 || (rest == 0.5 && below % 2 == 0) then below else below + 1
  }

  lemma RoundedIsNear(x: real)
    ensures -0.5 <= x - Rounded(x) as real <= 0.5
  {
  }

  function Digits(n: nat): (d: string)
    ensures |d| >= 1
  {
    if n < 10 then [DigitOf(n)] else Digits(n / 10) + [DigitOf(n % 10)]
  }

  function DigitOf(n: nat): char
    requires n < 10
  {
    "0123456789"[n]
  }

  // Different numbers have different digits.
  lemma {:induction false} DigitsDiffer(m: nat, n: nat)
    requires Digits(m) == Digits(n)
    ensures m == n
  {
    var x, y := Digits(m), Digits(n);
    assert x[|x| - 1] == DigitOf(m % 10) && y[|y| - 1] == DigitOf(n % 10);
    if m >= 10 && n >= 10 {
      assert x[..|x| - 1] == Digits(m / 10) && y[..|y| - 1] == Digits(n / 10);
      DigitsDiffer(m / 10, n / 10);
    }
  }

  lemma SmallerSet<T>(a: set<T>, b: set<T>)
    requires a <= b
    ensures |a| <= |b|
  {
    assert b == a + (b - a);
  }
}

// Database timestamps: a finite instant in microseconds, or PostgreSQL's '-infinity'.
module Clock {

  datatype Instant = MinusInfinity | At(at: int)

  const SECOND: int := 1_000_000

  // t <= clock_timestamp()
  predicate Due(t: Instant, now: int) {
    t.MinusInfinity? || t.at <= now
  }
}
