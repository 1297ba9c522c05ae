/** The JavaScript number operations the core relies on, on integers.
    JavaScript's `%` truncates toward zero: the remainder takes the sign of
    the dividend (`-3 % 8 == -3`), unlike Dafny's Euclidean `%`. */
module JsNumber {

  function Abs(a: int): nat { if a < 0 then -a else a }

  /** `a % b` as JavaScript evaluates it on integers, for a positive divisor
      (every divisor in the core is an array length that is checked or known
      to be non-zero). A result of `-0` is 0 here. */
  function Rem(a: int, b: int): (r: int)
    requires b > 0
    ensures Abs(r) < b
    ensures a >= 0 ==> r >= 0
    ensures a <= 0 ==> r <= 0
    ensures (a - r) % b == 0
  {
    RemainderIsCongruent(a, b);
    if a >= 0 then a % b else -((-a) % b)
  }

  lemma RemainderIsCongruent(a: int, b: int)
    requires b > 0
    ensures a >= 0 ==> (a - a % b) % b == 0
    ensures a < 0 ==> (a + (-a) % b) % b == 0
  {
    if a >= 0 {
      assert a - a % b == b * (a / b);
      MultipleHasNoRemainder(b, a / b);
    } else {
      assert -a == b * ((-a) / b) + (-a) % b;
      assert a + (-a) % b == b * (-((-a) / b));
      MultipleHasNoRemainder(b, -((-a) / b));
    }
  }

  /** On a non-negative dividend the two remainders agree. */
  lemma RemOfNonNegative(a: int, b: int)
    requires a >= 0 && b > 0
    ensures Rem(a, b) == a % b
  {
  }

  /** The truncating remainder is determined by its contract: a value that has
      the dividend's sign, is smaller in magnitude than the divisor and differs
      from the dividend by a multiple of it is `Rem(a, b)`. */
  lemma RemUnique(a: int, b: int, r: int)
    requires b > 0
    requires Abs(r) < b
    requires a >= 0 ==> r >= 0
    requires a <= 0 ==> r <= 0
    requires (a - r) % b == 0
    ensures r == Rem(a, b)
  {
    var s := Rem(a, b);
    var q1 := (a - r) / b;
    var q2 := (a - s) / b;
    assert a - r == b * q1;
    assert a - s == b * q2;
    assert b * (q2 - q1) == r - s;
    OnlyZeroMultipleIsSmall(b, q2 - q1);
  }

  lemma {:induction false} MultipleIsLarge(b: int, m: int)
    requires b > 0 && m >= 1
    ensures b * m >= b
    decreases m
  {
    if m > 1 {
      MultipleIsLarge(b, m - 1);
      assert b * m == b * (m - 1) + b;
    }
  }

  lemma OnlyZeroMultipleIsSmall(b: int, m: int)
    requires b > 0 && -b < b * m < b
    ensures m == 0
  {
    if m >= 1 {
      MultipleIsLarge(b, m);
    } else if m <= -1 {
      MultipleIsLarge(b, -m);
    }
  }

  lemma MultipleHasNoRemainder(b: int, q: int)
    requires b > 0
    ensures (b * q) % b == 0
  {
    var x := b * q;
    assert x == b * (x / b) + x % b;
    assert b * (q - x / b) == x % b;
    OnlyZeroMultipleIsSmall(b, q - x / b);
  }
}
