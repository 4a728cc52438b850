/** Powers of ten, digit strings, and rounding a coefficient to a number of digits. */
module Decimals {

  /** `q` followed by `j` zeros: `q * 10**j`. */
  function Scale(q: nat, j: nat): nat
  {
    if j == 0 then q else 10 * Scale(q, j - 1)
  }

  function Pow10(n: nat): nat { Scale(1, n) }

  lemma {:induction false} ScaleAdd(q: nat, a: nat, b: nat)
    ensures Scale(q, a + b) == Scale(Scale(q, a), b)
  {
    if b > 0 {
      ScaleAdd(q, a, b - 1);
    }
  }

  lemma {:induction false} ScaleSum(p: nat, q: nat, j: nat)
    ensures Scale(p + q, j) == Scale(p, j) + Scale(q, j)
  {
    if j > 0 {
      ScaleSum(p, q, j - 1);
    }
  }

  lemma {:induction false} ScaleGrows(q: nat, j: nat)
    ensures q <= Scale(q, j)
  {
    if j > 0 {
      ScaleGrows(q, j - 1);
    }
  }

  /** Scaling keeps the order, strictly. */
  lemma ScaleOrder(p: nat, q: nat, j: nat)
    ensures p <= q <==> Scale(p, j) <= Scale(q, j)
    ensures p == q <==> Scale(p, j) == Scale(q, j)
  {
    if p <= q {
      ScaleSum(p, q - p, j);
      ScaleGrows(q - p, j);
    } else {
      ScaleSum(q, p - q, j);
      ScaleGrows(p - q, j);
    }
  }

  lemma Pow10Monotone(a: nat, b: nat)
    requires a <= b
    ensures 1 <= Pow10(a) <= Pow10(b)
  {
    ScaleGrows(1, a);
    ScaleAdd(1, a, b - a);
    ScaleGrows(Pow10(a), b - a);
  }

  /** Number of digits of the decimal notation. */
  function DigitCount(c: nat): (n: nat)
    ensures n >= 1
  {
    if c < 10 then 1 else 1 + DigitCount(c / 10)
  }

  lemma {:induction false} DigitCountBounds(c: nat)
    ensures c < Pow10(DigitCount(c))
    ensures c > 0 ==> Pow10(DigitCount(c) - 1) <= c
  {
    if c >= 10 {
      DigitCountBounds(c / 10);
    } else {
      assert Pow10(1) == 10;
    }
  }

  lemma DigitCountWithin(c: nat, n: nat)
    requires n >= 1 && c < Pow10(n)
    ensures DigitCount(c) <= n
  {
    DigitCountBounds(c);
    if DigitCount(c) > n && c > 0 {
      Pow10Monotone(n, DigitCount(c) - 1);
    }
  }

  // ---- digit strings ----

  predicate IsDigit(ch: char) { '0' <= ch <= '9' }

  predicate AllDigits(s: string) { forall ch :: ch in s ==> IsDigit(ch) }

  function DigitValue(ch: char): (d: nat)
    requires IsDigit(ch)
    ensures d < 10
  {
    (ch - '0') as nat
  }

  function DigitChar(d: nat): (ch: char)
    requires d < 10
    ensures IsDigit(ch) && DigitValue(ch) == d
  {
    '0' + d as char
  }

  function NatOf(s: string): nat
    requires AllDigits(s)
  {
    if s == [] then 0 else NatOf(s[..|s| - 1]) * 10 + DigitValue(s[|s| - 1])
  }

  /** `f"{n}"`. */
  function Digits(n: nat): (s: string)
    ensures AllDigits(s) && |s| == DigitCount(n)
  {
    if n < 10 then [DigitChar(n)] else Digits(n / 10) + [DigitChar(n % 10)]
  }

  /** `f"{n:0{width}d}"` for `n < 10**width`. */
  function Padded(n: nat, width: nat): (s: string)
    ensures AllDigits(s) && |s| == width
  {
    if width == 0 then [] else Padded(n / 10, width - 1) + [DigitChar(n % 10)]
  }

  lemma NatOfSnoc(s: string, ch: char)
    requires AllDigits(s) && IsDigit(ch)
    ensures AllDigits(s + [ch]) && NatOf(s + [ch]) == NatOf(s) * 10 + DigitValue(ch)
  {
    assert (s + [ch])[..|s|] == s;
  }

  lemma {:induction false} DigitsRead(n: nat)
    ensures NatOf(Digits(n)) == n
  {
    if n < 10 {
      NatOfSnoc([], DigitChar(n));
      assert [] + [DigitChar(n)] == Digits(n);
    } else {
      DigitsRead(n / 10);
      NatOfSnoc(Digits(n / 10), DigitChar(n % 10));
    }
  }

  lemma {:induction false} PaddedRead(n: nat, width: nat)
    requires n < Pow10(width)
    ensures NatOf(Padded(n, width)) == n
  {
    if width > 0 {
      PaddedRead(n / 10, width - 1);
      NatOfSnoc(Padded(n / 10, width - 1), DigitChar(n % 10));
    }
  }

  lemma {:induction false} NatOfConcat(a: string, b: string)
    requires AllDigits(a) && AllDigits(b)
    ensures AllDigits(a + b) && NatOf(a + b) == Scale(NatOf(a), |b|) + NatOf(b)
  {
    if b == [] {
      assert a + b == a;
    } else {
      var front, last := b[..|b| - 1], b[|b| - 1];
      NatOfConcat(a, front);
      assert a + b == (a + front) + [last];
      NatOfSnoc(a + front, last);
    }
  }

  lemma {:induction false} NatOfBound(s: string)
    requires AllDigits(s)
    ensures NatOf(s) < Pow10(|s|)
  {
    if s != [] {
      NatOfBound(s[..|s| - 1]);
    }
  }

  // ---- rounding to a precision ----

  /** Digits beyond the precision. */
  function Excess(c: nat, precision: nat): nat
  {
    if DigitCount(c) > precision then DigitCount(c) - precision else 0
  }

  /** `c` without its last `k` digits. */
  function DivPow(c: nat, k: nat): nat
  {
    if k == 0 then c else DivPow(c, k - 1) / 10
  }

  lemma {:induction false} DivPowBounds(c: nat, k: nat)
    ensures Scale(DivPow(c, k), k) <= c < Scale(DivPow(c, k) + 1, k)
  {
    if k > 0 {
      DivPowBounds(c, k - 1);
      var d, e := DivPow(c, k - 1), DivPow(c, k);
      ScaleTen(e, k);
      ScaleTen(e + 1, k);
      ScaleOrder(10 * e, d, k - 1);
      ScaleOrder(d + 1, 10 * (e + 1), k - 1);
    }
  }

  lemma ScaleTen(q: nat, k: nat)
    requires k > 0
    ensures Scale(q, k) == Scale(10 * q, k - 1)
  {
    ScaleAdd(q, 1, k - 1);
    assert Scale(q, 1) == 10 * Scale(q, 0);
  }

  /** The last `k` digits of `c`. */
  function ModPow(c: nat, k: nat): (r: nat)
    ensures r < Pow10(k) && c == Scale(DivPow(c, k), k) + r
  {
    DivPowBounds(c, k);
    ScaleSum(DivPow(c, k), 1, k);
    c - Scale(DivPow(c, k), k)
  }

  lemma DivPowExact(q: nat, k: nat)
    ensures DivPow(Scale(q, k), k) == q && ModPow(Scale(q, k), k) == 0
  {
    var d := DivPow(Scale(q, k), k);
    DivPowBounds(Scale(q, k), k);
    ScaleOrder(d, q, k);
    ScaleOrder(d + 1, q, k);
  }

  /** ROUND_HALF_EVEN of `c / 10**k`. */
  function HalfEven(c: nat, k: nat): nat
  {
    var q, r := DivPow(c, k), ModPow(c, k);
    if 2 * r > Pow10(k) || (2 * r == Pow10(k) && q % 2 == 1) then q + 1 else q
  }

  /** The coefficient after rounding to `precision` digits, with its dropped digits written as zeros. */
  function Rounded(c: nat, precision: nat): nat
  {
    Scale(HalfEven(c, Excess(c, precision)), Excess(c, precision))
  }

  /** At most `precision` significant digits: trailing zeros are free. */
  ghost predicate Fits(c: nat, precision: nat)
  {
    exists q: nat, j: nat :: c == Scale(q, j) && q < Pow10(precision)
  }

  lemma FitsBy(q: nat, j: nat, precision: nat)
    requires q < Pow10(precision)
    ensures Fits(Scale(q, j), precision)
  {
  }

  /** Rounding is exact precisely when nothing but zeros is dropped; what it yields always fits. */
  lemma RoundedExactly(c: nat, precision: nat)
    requires precision >= 1
    ensures Rounded(c, precision) == c <==> Fits(c, precision)
    ensures Rounded(c, precision) == c <==> ModPow(c, Excess(c, precision)) == 0
    ensures Fits(Rounded(c, precision), precision)
  {
    var k := Excess(c, precision);
    QuotientSmall(c, precision);
    RoundingMoves(c, k);
    if ModPow(c, k) == 0 {
      FitsBy(DivPow(c, k), k, precision);
    }
    if Fits(c, precision) {
      FitsDivides(c, precision);
    }
    RoundedFits(HalfEven(c, k), k, precision);
  }

  lemma QuotientSmall(c: nat, precision: nat)
    requires precision >= 1
    ensures DivPow(c, Excess(c, precision)) < Pow10(precision)
  {
    var k := Excess(c, precision);
    DigitCountBounds(c);
    DivPowBounds(c, k);
    if DigitCount(c) <= precision {
      Pow10Monotone(DigitCount(c), precision);
    } else {
      ScaleAdd(1, precision, k);
      ScaleOrder(Pow10(precision), DivPow(c, k), k);
    }
  }

  lemma RoundingMoves(c: nat, k: nat)
    ensures Scale(HalfEven(c, k), k) == c <==> ModPow(c, k) == 0
    ensures DivPow(c, k) <= HalfEven(c, k) <= DivPow(c, k) + 1
  {
    ScaleSum(DivPow(c, k), 1, k);
    ScaleGrows(1, k);
  }

  lemma RoundedFits(h: nat, k: nat, precision: nat)
    requires h <= Pow10(precision) && precision >= 1
    ensures Fits(Scale(h, k), precision)
  {
    if h < Pow10(precision) {
      FitsBy(h, k, precision);
    } else {
      Pow10Monotone(1, precision);
      assert Pow10(1) == 10;
      ScaleAdd(1, precision, k);
      FitsBy(1, precision + k, precision);
    }
  }

  lemma FitsDivides(c: nat, precision: nat)
    requires Fits(c, precision) && precision >= 1
    ensures ModPow(c, Excess(c, precision)) == 0
  {
    var q: nat, j: nat :| c == Scale(q, j) && q < Pow10(precision);
    var k := Excess(c, precision);
    ScaleAdd(1, precision, j);
    ScaleOrder(Pow10(precision), q, j);
    DigitCountWithin(c, precision + j);
    ScaleAdd(q, j - k, k);
    DivPowExact(Scale(q, j - k), k);
  }

  /** Adding or removing trailing zeros does not change how many significant digits there are. */
  lemma FitsScaled(c: nat, m: nat, precision: nat)
    ensures Fits(Scale(c, m), precision) <==> Fits(c, precision)
  {
    if Fits(c, precision) {
      var q: nat, j: nat :| c == Scale(q, j) && q < Pow10(precision);
      ScaleAdd(q, j, m);
      FitsBy(q, j + m, precision);
    }
    if Fits(Scale(c, m), precision) {
      var q: nat, j: nat :| Scale(c, m) == Scale(q, j) && q < Pow10(precision);
      FitsUnscaled(c, m, q, j, precision);
    }
  }

  lemma FitsUnscaled(c: nat, m: nat, q: nat, j: nat, precision: nat)
    requires Scale(c, m) == Scale(q, j) && q < Pow10(precision)
    ensures Fits(c, precision)
  {
    var (q1, j1) := Unscaled(c, m, q, j);
    FitsBy(q1, j1, precision);
  }

  /** `c` with its own trailing zeros taken off, found from a scaled form of it. */
  function Unscaled(c: nat, m: nat, q: nat, j: nat): (r: (nat, nat))
    requires Scale(c, m) == Scale(q, j)
    ensures c == Scale(r.0, r.1) && r.0 <= q
  {
    if j >= m then
      ScaleAdd(q, j - m, m);
      ScaleOrder(c, Scale(q, j - m), m);
      (q, j - m)
    else
      ScaleAdd(c, m - j, j);
      ScaleOrder(Scale(c, m - j), q, j);
      ScaleGrows(c, m - j);
      (c, 0)
  }
}
