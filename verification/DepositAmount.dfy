/** The amount of a deposit's payment order: paise divided by a hundred and multiplied back in binary floating point,
    with the 53-bit significand and round-half-to-even of IEEE 754 double precision, and then truncated. */
module DepositAmount {
  import opened Common
  import Payments

  function Pow2(k: nat): (r: nat)
    ensures r > 0
  {
    if k == 0 then 1 else 2 * Pow2(k - 1)
  }

  const TWO_52 := 0x10_0000_0000_0000
  const TWO_59 := 0x800_0000_0000_0000

  /** A positive double: significand over a power of two. */
  datatype Float = Float(significand: nat, scale: nat)

  /** The integer nearest to n/d, and of two nearest ones the even one. */
  function RoundDiv(n: nat, d: nat): (q: nat)
    requires d > 0
    ensures q == n / d || q == n / d + 1
  {
    var q, r := n / d, n % d;
    if 2 * r < d || (2 * r == d && q % 2 == 0) then q else q + 1
  }

  /** f is the double nearest to n/d: the scale makes the significand one of 53 bits, and it is rounded. */
  predicate Nearest(n: nat, d: nat, f: Float) {
    d > 0 && TWO_52 * d <= n * Pow2(f.scale) < 2 * TWO_52 * d && f.significand == RoundDiv(n * Pow2(f.scale), d)
  }

  /** Rounding is off by half a unit at most: a relative error of one part in 2^53. */
  lemma RoundedWithinHalf(n: nat, d: nat)
    requires d > 0
    ensures -(d as int) <= 2 * (n - RoundDiv(n, d) * d) <= d
  {
  }

  function ScaleFrom(n: nat, d: nat, k: nat): (scale: nat)
    requires n > 0 && d > 0 && n * Pow2(k) < 2 * TWO_52 * d
    ensures TWO_52 * d <= n * Pow2(scale) < 2 * TWO_52 * d
    decreases TWO_52 * d - n * Pow2(k)
  {
    assert n * Pow2(k + 1) == 2 * (n * Pow2(k));
    if TWO_52 * d <= n * Pow2(k) then k else ScaleFrom(n, d, k + 1)
  }

  /** n/d in double precision, for quotients below 2^53. */
  function Divide(n: nat, d: nat): (f: Float)
    requires n > 0 && d > 0 && n < 2 * TWO_52 * d
    ensures Nearest(n, d, f)
  {
    var k := ScaleFrom(n, d, 0);
    Float(RoundDiv(n * Pow2(k), d), k)
  }

  // ---- The exact order amount ----

  lemma {:induction false} Pow2Sum(a: nat, b: nat)
    ensures Pow2(a + b) == Pow2(a) * Pow2(b)
  {
    if a > 0 {
      Pow2Sum(a - 1, b);
    }
  }

  lemma {:induction false} Pow2Grows(a: nat, b: nat)
    requires a <= b
    ensures Pow2(a) <= Pow2(b)
  {
    if a < b {
      Pow2Grows(a, b - 1);
    }
  }

  lemma Pow2Small()
    ensures Pow2(6) == 64 && Pow2(7) == 128 && Pow2(8) == 256 && Pow2(10) == 1024
  {
  }

  lemma Times(a: nat, b: nat, c: nat)
    requires b <= c
    ensures a * b <= a * c
  {
  }

  lemma Factor128(p: nat, x: nat)
    ensures p * (128 * x) == 128 * (p * x) && p * (128 * x) % 128 == 0
  {
  }

  /** The scale of the quotient leaves room: the scaled amount is a multiple of 128. */
  lemma ScaledAmount(p: nat, k: nat)
    requires 0 < p <= Payments.MAX_DEPOSIT && TWO_52 * 100 <= p * Pow2(k)
    ensures k >= 8 && p * Pow2(k) % 128 == 0
  {
    hide Pow2;
    Pow2Small();
    if k < 8 {
      Pow2Grows(k, 8);
      Times(p, Pow2(k), 256);
    }
    Pow2Sum(7, k - 7);
    Factor128(p, Pow2(k - 7));
  }

  lemma Remainder4(a: nat)
    requires a % 128 == 0
    ensures a % 4 == 0 && a % 100 != 50
  {
  }

  /** A hundred times the rounded quotient of the scaled amount: within the remainder of it. */
  lemma Hundredfold(a: nat)
    requires a % 128 == 0
    ensures a % 100 != 50 && a % 4 == 0
    ensures 100 * RoundDiv(a, 100) == if a % 100 < 50 then a - a % 100 else a + (100 - a % 100)
  {
    Remainder4(a);
    var q, r := a / 100, a % 100;
    assert a == 100 * q + r;
    assert RoundDiv(a, 100) == if r < 50 then q else q + 1;
  }

  lemma TooFine(b: nat, k: nat, t: nat)
    requires b >= 64 * TWO_52 && k <= t
    ensures b * Pow2(t) >= 2 * TWO_52 * Pow2(k)
  {
  }

  /** The scale of the product: its rounding drops six bits below 2^59 and seven from there on. */
  lemma ProductScale(b: nat, k: nat, t: nat)
    requires 64 * TWO_52 <= b < 256 * TWO_52
    requires TWO_52 * Pow2(k) <= b * Pow2(t) < 2 * TWO_52 * Pow2(k)
    ensures t <= k <= t + 7 && Pow2(k) == Pow2(k - t) * Pow2(t)
    ensures Pow2(k - t) == if b < TWO_59 then 64 else 128
  {
    hide Pow2;
    Pow2Small();
    if k <= t {
      TooFine(b, k, t);
    }
    var s := k - t;
    Pow2Sum(s, t);
    DropBits(b, Pow2(s), Pow2(t));
    if s < 6 {
      Pow2Grows(s, 5);
      Pow2Sum(1, 5);
      Pow2One();
    } else if s > 7 {
      Pow2Grows(8, s);
    }
  }

  lemma Pow2One()
    ensures Pow2(1) == 2
  {
  }

  /** A common factor of both sides does not matter. */
  lemma DropBits(b: nat, s: nat, t: nat)
    requires t > 0 && TWO_52 * (s * t) <= b * t < 2 * TWO_52 * (s * t)
    ensures TWO_52 * s <= b < 2 * TWO_52 * s
  {
  }

  lemma SignOf(x: int, t: nat)
    requires t > 0
    ensures x * t >= 0 ==> x >= 0
    ensures x * t > 0 ==> x > 0
  {
  }

  lemma CommonFactor(b: nat, s: nat, t: nat)
    requires s > 0 && t > 0
    ensures s * t > 0 && RoundDiv(b * t, s * t) == RoundDiv(b, s)
  {
    var q, r := b / s, b % s;
    assert b == q * s + r;
    assert b * t == q * (s * t) + r * t;
    Times(t, r + 1, s);
    assert r * t < s * t;
    DivisionIs(b * t, s * t, q, r * t);
    assert 2 * (r * t) - s * t == (2 * r - s) * t;
    SignOf(2 * r - s, t);
    SignOf(s - 2 * r, t);
    if 2 * r == s {
      assert 2 * (r * t) == s * t;
    } else if 2 * r < s {
      assert (s - 2 * r) * t > 0;
    } else {
      assert (2 * r - s) * t > 0;
    }
  }

  lemma DivisionIs(n: int, d: int, q: int, r: int)
    requires n == q * d + r && 0 <= r < d
    ensures n / d == q && n % d == r
  {
    var q', r' := n / d, n % d;
    assert n == q' * d + r';
    assert (q - q') * d == r' - r;
    if q > q' {
      Times(d, 1, q - q');
    } else if q < q' {
      Times(d, 1, q' - q);
    }
  }

  /** Rounding near an even multiple of s. */
  lemma RoundNear(c: nat, s: nat, delta: int)
    requires (s == 64 || s == 128) && c % 2 == 0 && -(s as int) < delta < s && c * s + delta >= 0
    ensures RoundDiv(c * s + delta, s) == if 2 * delta > s then c + 1 else if 2 * delta < -(s as int) then c - 1 else c
  {
  }

  lemma Truncated(p: nat, t: nat)
    requires t >= 2 && p > 0
    ensures p * t / t == p && (p * t + 1) / t == p && (p * t - 1) / t == p - 1
  {
    DivisionIs(p * t, t, p, 0);
    DivisionIs(p * t + 1, t, p, 1);
    assert p * t - 1 == (p - 1) * t + (t - 1);
    DivisionIs(p * t - 1, t, p - 1, t - 1);
  }

  /** The division of p by a hundred is rounded down so far that the product cannot recover: a condition on the scaled
      amount, which a caller can compute. */
  predicate Short(p: nat, k: nat) {
    p * Pow2(k) < TWO_59 && 32 < p * Pow2(k) % 100 < 50
  }

  /** The product in units of its own last place is the scaled amount, one less, or one more. */
  lemma ProductIs(p: nat, k: nat, t: nat, a: nat, b: nat)
    requires 0 < p && a == p * Pow2(k) && a % 128 == 0 && 100 * TWO_52 <= a < 200 * TWO_52
    requires b == if a % 100 < 50 then a - a % 100 else a + (100 - a % 100)
    requires a % 100 != 50 && a % 4 == 0
    requires TWO_52 * Pow2(k) <= b * Pow2(t) < 2 * TWO_52 * Pow2(k) && k >= 8
    ensures t >= 1
    ensures RoundDiv(b * Pow2(t), Pow2(k)) == p * Pow2(t) - 1 <==> Short(p, k)
    ensures p * Pow2(t) - 1 <= RoundDiv(b * Pow2(t), Pow2(k)) <= p * Pow2(t) + 1
  {
    hide Pow2, RoundDiv;
    ProductScale(b, k, t);
    var s, u := Pow2(k - t), Pow2(t);
    CommonFactor(b, s, u);
    var c := p * u;
    Regroup(p, s, u);
    EvenPow2(p, t);
    var delta: int := b - a;
    assert a == c * s;
    assert a == TWO_59 ==> a % 100 == 88;
    RoundNear(c, s, delta);
  }

  lemma Regroup(p: nat, s: nat, u: nat)
    ensures p * (s * u) == (p * u) * s
  {
  }

  lemma EvenPow2(p: nat, t: nat)
    requires t >= 1
    ensures p * Pow2(t) % 2 == 0 && Pow2(t) >= 2
  {
    Halved(p, Pow2(t - 1));
  }

  lemma Halved(p: nat, x: nat)
    ensures p * (2 * x) == 2 * (p * x) && p * (2 * x) % 2 == 0
  {
  }

  /** The order of every deposit in range is its amount or one paisa less, and exactly when it is less. */
  lemma OrderIs(p: nat, q: Float, m: Float)
    requires Payments.MIN_DEPOSIT <= p <= Payments.MAX_DEPOSIT
    requires Nearest(p, 100, q) && Nearest(100 * q.significand, Pow2(q.scale), m)
    ensures m.significand / Pow2(m.scale) == if Short(p, q.scale) then p - 1 else p
  {
    hide Pow2, RoundDiv, Short;
    var a := p * Pow2(q.scale);
    ScaledAmount(p, q.scale);
    Hundredfold(a);
    ProductIs(p, q.scale, m.scale, a, 100 * q.significand);
    EvenPow2(p, m.scale);
    Truncated(p, Pow2(m.scale));
  }

  /** The quotient and the product both exist: this is the amount of the order. */
  function OrderPaise(p: nat): (r: nat)
    requires Payments.MIN_DEPOSIT <= p <= Payments.MAX_DEPOSIT
    ensures r == p || r == p - 1
    ensures r == p - 1 <==> Short(p, Divide(p, 100).scale)
  {
    var q := Divide(p, 100);
    assert 100 * q.significand < 2 * TWO_52 * Pow2(q.scale) && q.significand > 0 by { QuotientInRange(p, q); }
    var m := Divide(100 * q.significand, Pow2(q.scale));
    OrderIs(p, q, m);
    m.significand / Pow2(m.scale)
  }

  lemma QuotientInRange(p: nat, q: Float)
    requires 0 < p <= Payments.MAX_DEPOSIT && Nearest(p, 100, q)
    ensures 0 < 100 * q.significand < 2 * TWO_52 * Pow2(q.scale)
  {
    hide Pow2, RoundDiv;
    var k := Pow2(q.scale);
    ScaledAmount(p, q.scale);
    Hundredfold(p * k);
    Times(k, p, Payments.MAX_DEPOSIT);
    Times(k, 1, 100);
  }

  lemma Pow2Is52()
    ensures Pow2(52) == TWO_52
  {
    hide Pow2;
    Pow2Small();
    Pow2One();
    Pow2Sum(10, 10);
    Pow2Sum(20, 20);
    Pow2Sum(40, 10);
    Pow2Sum(1, 1);
    Pow2Sum(2, 50);
  }

  /** A deposit of one rupee fifteen is ordered at one rupee fourteen: the provider collects a paisa less than the
      wallet is credited. */
  lemma OnePaisaShort()
    ensures OrderPaise(115) == 114
  {
    hide Pow2, RoundDiv, OrderPaise, Divide;
    Pow2Is52();
    ScaleOnlyUp(115, 100, 52, Divide(115, 100).scale);
    ScaleOnlyUp(115, 100, Divide(115, 100).scale, 52);
  }

  lemma ScaleOnlyUp(n: nat, d: nat, j: nat, k: nat)
    requires TWO_52 * d <= n * Pow2(j) && n * Pow2(k) < 2 * TWO_52 * d
    ensures k <= j
  {
    hide Pow2;
    if j < k {
      Pow2Grows(j + 1, k);
      Doubled(n, j);
      Times(n, Pow2(j + 1), Pow2(k));
    }
  }

  lemma Doubled(n: nat, j: nat)
    ensures n * Pow2(j + 1) == 2 * (n * Pow2(j))
  {
  }
}
