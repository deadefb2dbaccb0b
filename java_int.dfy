/**
 * Java's 32-bit `int`: the range, two's complement wrap-around of `+`, and `/`,
 * which truncates toward zero (Dafny's own `/` on `int` is Euclidean).
 */
module JavaInt {

  const TWO_32: int := 0x1_0000_0000
  const MIN: int := -0x8000_0000
  const MAX: int := 0x7fff_ffff

  newtype int32 = x: int | -0x8000_0000 <= x < 0x8000_0000

  /** The 32-bit value Java keeps of the mathematical integer `x`. */
  function Wrap(x: int): (r: int32)
    ensures (r as int - x) % TWO_32 == 0
    ensures MIN <= x <= MAX ==> r as int == x
  {
    var m := x % TWO_32;
    assert x == TWO_32 * (x / TWO_32) + m;
    if m <= MAX then m as int32 else (m - TWO_32) as int32
  }

  /** `Wrap` picks the only 32-bit value congruent to its argument. */
  lemma WrapUnique(x: int, v: int32)
    requires (v as int - x) % TWO_32 == 0
    ensures v == Wrap(x)
  {
    var w := Wrap(x);
    var d := v as int - w as int;
    assert d % TWO_32 == 0 by {
      ModDifference(v as int - x, w as int - x);
    }
    assert -TWO_32 < d < TWO_32;
  }

  lemma ModDifference(a: int, b: int)
    requires a % TWO_32 == 0 && b % TWO_32 == 0
    ensures (a - b) % TWO_32 == 0
  {
    assert a == TWO_32 * (a / TWO_32);
    assert b == TWO_32 * (b / TWO_32);
    assert a - b == TWO_32 * (a / TWO_32 - b / TWO_32);
  }

  /** Java `a + b` on two ints. */
  function Add(a: int32, b: int32): (r: int32)
    ensures MIN <= a as int + b as int <= MAX ==> r as int == a as int + b as int
    ensures a as int + b as int > MAX ==> r as int == a as int + b as int - TWO_32
    ensures a as int + b as int < MIN ==> r as int == a as int + b as int + TWO_32
  {
    var s := a as int + b as int;
    if s > MAX then
      WrapUnique(s, (s - TWO_32) as int32);
      Wrap(s)
    else if s < MIN then
      WrapUnique(s, (s + TWO_32) as int32);
      Wrap(s)
    else
      Wrap(s)
  }

  /** Adding one always changes a counter: at the top of the range it wraps to `MIN`. */
  lemma AddOneChanges(x: int32)
    ensures Add(x, 1) != x
    ensures x as int == MAX ==> Add(x, 1) as int == MIN
  {
  }

  function Abs(x: int): nat
  {
    if x < 0 then -x else x
  }

  /**
   * The mathematical quotient rounded toward zero, as Java's `/` computes it before
   * narrowing: its magnitude is that of the operands' quotient, its sign their sign product.
   */
  function Quot(a: int, b: int): (q: int)
    requires b != 0
    ensures Abs(q) == Abs(a) / Abs(b)
    ensures q != 0 ==> (q < 0 <==> (a < 0) != (b < 0))
  {
    var n := Abs(a) / Abs(b);
    assert n >= 0 by {
      DivMagnitude(Abs(a), Abs(b));
    }
    if (a < 0) == (b < 0) then n else -n
  }

  /** On non-negative operands Java's quotient is Dafny's. */
  lemma QuotOfNonNegative(a: int, b: int)
    requires a >= 0 && b > 0
    ensures Quot(a, b) == a / b
  {
  }

  /** Truncation is symmetric about zero, unlike Euclidean division: `-7 / 2` is `-3`, not `-4`. */
  lemma QuotNegated(a: int, b: int)
    requires b != 0
    ensures Quot(-a, b) == -Quot(a, b)
    ensures Quot(a, -b) == -Quot(a, b)
  {
    assert Abs(-a) == Abs(a) && Abs(-b) == Abs(b);
    if Quot(a, b) == 0 {
      assert Abs(a) / Abs(b) == 0;
    }
  }

  /** The example that tells the two divisions apart. */
  lemma QuotRoundsTowardZero()
    ensures Quot(-7, 2) == -3 && -7 / 2 == -4
  {
    assert Abs(-7) / Abs(2) == 3;
  }

  lemma DivMagnitude(n: nat, d: nat)
    requires d >= 1
    ensures 0 <= n / d <= n
    ensures n / d == n ==> n == 0 || d == 1
  {
    assert n == d * (n / d) + n % d;
    if d >= 2 && n > 0 {
      assert d * (n / d) >= 2 * (n / d);
    }
  }

  /** Java `a / b` on two ints; the one overflow, `MIN / -1`, wraps back to `MIN`. */
  function Div(a: int32, b: int32): (r: int32)
    requires b != 0
    ensures !(a as int == MIN && b == -1) ==> r as int == Quot(a as int, b as int)
    ensures a as int == MIN && b == -1 ==> r as int == MIN
  {
    var q := Quot(a as int, b as int);
    if a as int == MIN && b == -1 then
      assert q == TWO_32 / 2;
      WrapUnique(q, MIN as int32);
      Wrap(q)
    else
      assert MIN <= q <= MAX by {
        DivMagnitude(Abs(a as int), Abs(b as int));
      }
      Wrap(q)
  }
}
