/** Python's `int(old * 0.7)` on a whole number of milliseconds, computed the
    way the interpreter does it: the literal 0.7 is the IEEE-754 double
    nearest to 7/10, the product is rounded to 53 significant bits
    (round half to even), and `int` truncates toward zero. */
module FloatScale {

  /** 2^52, the weight of the leading significand bit of a double in [1, 2). */
  const TWO_52: nat := 0x10_0000_0000_0000

  /** The double nearest to 0.7 is SEVEN_TENTHS / 2^52 (slightly below 0.7). */
  const SEVEN_TENTHS: nat := 3152519739159347

  function Pow2(n: nat): (r: nat)
    ensures r >= 1
  {
    if n == 0 then 1 else 2 * Pow2(n - 1)
  }

  lemma {:induction false} Pow2Add(a: nat, b: nat)
    ensures Pow2(a + b) == Pow2(a) * Pow2(b)
  {
    if a > 0 {
      Pow2Add(a - 1, b);
    }
  }

  /** Number of binary digits of n (0 for 0). */
  function BitLength(n: nat): nat
  {
    if n == 0 then 0 else 1 + BitLength(n / 2)
  }

  lemma {:induction false} BitLengthBounds(n: nat)
    requires n > 0
    ensures BitLength(n) >= 1
    ensures Pow2(BitLength(n) - 1) <= n < Pow2(BitLength(n))
  {
    if n > 1 {
      BitLengthBounds(n / 2);
    }
  }

  /** How many low bits of an exact product must be rounded away so that
      53 significant bits remain. */
  function Shift(p: nat): nat
  {
    if BitLength(p) > 53 then BitLength(p) - 53 else 0
  }

  /** p / 2^s rounded to the nearest whole number, ties to the even one. */
  function RoundHalfEven(p: nat, s: nat): nat
  {
    if s == 0 then p
    else
      var q := p / Pow2(s);
      var rest := p % Pow2(s);
      var half := Pow2(s - 1);
      if rest > half || (rest == half && q % 2 == 1) then q + 1 else q
  }

  lemma RoundingError(p: nat, s: nat)
    ensures 2 * (RoundHalfEven(p, s) * Pow2(s) - p) <= Pow2(s)
    ensures 2 * (p - RoundHalfEven(p, s) * Pow2(s)) <= Pow2(s)
  {
    if s > 0 {
      var w := Pow2(s);
      DivMod(p, w);
      RoundProduct(p, w, Pow2(s - 1), p / w, p % w, RoundHalfEven(p, s));
    }
  }

  lemma DivMod(p: nat, w: nat)
    requires w > 0
    ensures p == (p / w) * w + p % w && 0 <= p % w < w
  {
  }

  lemma RoundProduct(p: int, w: int, half: int, q: int, rest: int, r: int)
    requires w == 2 * half && p == q * w + rest && 0 <= rest < w
    requires (r == q + 1 && rest >= half) || (r == q && rest <= half)
    ensures 2 * (r * w - p) <= w && 2 * (p - r * w) <= w
  {
    if r == q + 1 {
      assert r * w == q * w + w;
    }
  }

  /** `int(x * 0.7)` as the Python interpreter evaluates it. */
  function TruncTimesSevenTenths(x: nat): nat
  {
    var p := x * SEVEN_TENTHS;
    var s := Shift(p);
    (RoundHalfEven(p, s) * Pow2(s)) / TWO_52
  }

  lemma Pow2At52()
    ensures Pow2(52) == TWO_52
  {
    Pow2Add(26, 26);
    Pow2Add(13, 13);
    assert Pow2(13) == 8192;
  }

  /** The shifted-out weight never exceeds x itself. */
  lemma ShiftWeight(x: nat)
    requires x >= 1
    ensures Pow2(Shift(x * SEVEN_TENTHS)) <= x
  {
    var p := x * SEVEN_TENTHS;
    var s := Shift(p);
    if s > 0 {
      BitLengthBounds(p);
      assert BitLength(p) - 1 == 52 + s;
      Pow2Add(52, s);
      Pow2At52();
      // 2^52 * 2^s <= p = x * SEVEN_TENTHS < x * 2^52
      assert TWO_52 * Pow2(s) <= x * SEVEN_TENTHS;
      assert x * SEVEN_TENTHS < x * TWO_52;
      CancelFactor(TWO_52, Pow2(s), x);
    }
  }

  lemma CancelFactor(k: nat, a: nat, b: nat)
    requires k > 0 && k * a < b * k
    ensures a < b
  {
    if a >= b {
      MulMonotone(k, b, a);
    }
  }

  lemma MulMonotone(k: nat, a: nat, b: nat)
    requires a <= b
    ensures k * a <= k * b
  {
  }

  lemma {:induction false} BitLengthExact(n: nat, k: nat)
    requires k >= 1 && Pow2(k - 1) <= n < Pow2(k)
    ensures BitLength(n) == k
  {
    if k > 1 {
      BitLengthExact(n / 2, k - 1);
    }
  }

  /** The float rounding moves the result by at most one below the exact
      floor of 7x/10 and never above it. */
  lemma {:induction false} TruncTimesSevenTenthsBounds(x: nat)
    requires x < 0x1_0000_0000_0000
    ensures 7 * x / 10 - 1 <= TruncTimesSevenTenths(x) <= 7 * x / 10
  {
    if x == 0 {
      assert TruncTimesSevenTenths(x) == 0;
      return;
    }
    var p := x * SEVEN_TENTHS;
    var s := Shift(p);
    var w := Pow2(s);
    var d := RoundHalfEven(p, s) * w;
    var r := d / TWO_52;
    assert r == TruncTimesSevenTenths(x);
    RoundingError(p, s);
    ShiftWeight(x);
    assert 2 * (d - p) <= w && 2 * (p - d) <= w && w <= x;
    assert 10 * p == 7 * x * TWO_52 - 2 * x;
    // upper bound: 10 * r * 2^52 <= 10 * d < (7x + 1) * 2^52
    assert r * TWO_52 <= d;
    assert 10 * d < (7 * x + 1) * TWO_52;
    CancelFactor(TWO_52, 10 * r, 7 * x + 1);
    // lower bound: (7x - 1) * 2^52 < 10 * d < (10r + 10) * 2^52
    assert d < (r + 1) * TWO_52;
    assert (7 * x - 1) * TWO_52 < 10 * d;
    if 7 * x - 1 >= 0 {
      CancelFactor(TWO_52, 7 * x - 1, 10 * r + 10);
    }
  }

  /** Game.next_level's new spawn interval: max(140, int(prev * 0.7)). */
  function NextSpawnInterval(prev: nat): (r: nat)
    ensures r >= 140
  {
    var scaled := TruncTimesSevenTenths(prev);
    if scaled > 140 then scaled else 140
  }

  lemma NextSpawnIntervalBounds(prev: nat)
    requires 140 <= prev < 0x1_0000_0000_0000
    ensures 140 <= NextSpawnInterval(prev) <= prev
    ensures NextSpawnInterval(prev) >= 7 * prev / 10 - 1 || NextSpawnInterval(prev) == 140
    ensures NextSpawnInterval(prev) <= 7 * prev / 10 || NextSpawnInterval(prev) == 140
  {
    TruncTimesSevenTenthsBounds(prev);
  }

  /** Evaluated exactly: 700 * 0.7 is 489.99999999999994 as a double. */
  lemma FirstIntervalIs489()
    ensures TruncTimesSevenTenths(700) == 489
  {
    var p := 700 * SEVEN_TENTHS;
    assert p == 2206763817411542900;
    assert Pow2(8) == 256;
    Pow2At52();
    Pow2Add(52, 8);
    assert Pow2(60) == 0x1000_0000_0000_0000;
    assert Pow2(61) == 0x2000_0000_0000_0000;
    BitLengthExact(p, 61);
    assert RoundHalfEven(p, 8) == 8620171161763839;
    Pow2At52();
  }
}
