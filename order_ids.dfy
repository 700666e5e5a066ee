/**
 * Order ids: `'ORD' + Date.now().toString().slice(-8)`, built the same way by the
 * storefront page and by the checkout page. The clock reading is a parameter.
 */
module OrderIds {

  function Pow10(k: nat): (p: nat)
    ensures p >= 1
  {
    if k == 0 then 1 else 10 * Pow10(k - 1)
  }

  function DigitChar(d: nat): char
    requires d < 10
  {
    "0123456789"[d]
  }

  predicate IsDigit(c: char) {
    '0' <= c <= '9'
  }

  /** `n.toString()` for a natural number: its decimal digits, most significant first, no leading zero. */
  function Decimal(n: nat): (s: string)
    ensures 1 <= |s|
    ensures forall i :: 0 <= i < |s| ==> IsDigit(s[i])
    ensures n > 0 ==> s[0] != '0'
    decreases n
  {
    if n < 10 then [DigitChar(n)] else Decimal(n / 10) + [DigitChar(n % 10)]
  }

  /** `s.slice(-k)`: the last `k` characters, or all of `s` when it is shorter. */
  function SliceLast(s: string, k: nat): (r: string)
    ensures |r| == if |s| < k then |s| else k
  {
    if |s| <= k then s else s[|s| - k..]
  }

  /** The id built from a clock reading in milliseconds. */
  function OrderId(timestamp: nat): (id: string)
    ensures |id| >= 4 && id[..3] == "ORD"
    ensures forall i :: 3 <= i < |id| ==> IsDigit(id[i])
  {
    "ORD" + SliceLast(Decimal(timestamp), 8)
  }

  /** The last `k` decimal digits of `n`, zero padded: the digits of `n % 10^k`. */
  function Fixed(n: nat, k: nat): (s: string)
    ensures |s| == k
  {
    if k == 0 then [] else Fixed(n / 10, k - 1) + [DigitChar(n % 10)]
  }

  lemma {:induction false} DecimalLength(n: nat, k: nat)
    requires n >= Pow10(k)
    ensures |Decimal(n)| >= k + 1
  {
    if k > 0 {
      assert n / 10 >= Pow10(k - 1);
      DecimalLength(n / 10, k - 1);
    }
  }

  /** The last `k` characters of `n.toString()` are the `k` low digits of `n`. */
  lemma {:induction false} LastDigits(n: nat, k: nat)
    requires |Decimal(n)| >= k
    ensures Decimal(n)[|Decimal(n)| - k..] == Fixed(n, k)
  {
    if k == 0 {
    } else if n < 10 {
      assert k == 1;
      assert Fixed(n / 10, 0) == [];
    } else {
      var d := Decimal(n / 10);
      assert Decimal(n) == d + [DigitChar(n % 10)];
      LastDigits(n / 10, k - 1);
      assert Decimal(n)[|Decimal(n)| - k..] == d[|d| - (k - 1)..] + [DigitChar(n % 10)];
    }
  }

  lemma {:induction false} MulAtLeast(p: nat, x: nat)
    requires x >= 1
    ensures p * x >= p
  {
    if x > 1 {
      MulAtLeast(p, x - 1);
      assert p * x == p * (x - 1) + p;
    }
  }

  lemma ModUnique(n: nat, d: nat, a: nat, r: nat)
    requires d >= 1 && n == d * a + r && r < d
    ensures n % d == r
  {
    var q0, r0 := n / d, n % d;
    assert d * q0 + r0 == d * a + r;
    if q0 > a {
      MulAtLeast(d, q0 - a);
      assert false;
    } else if q0 < a {
      MulAtLeast(d, a - q0);
      assert false;
    }
  }

  lemma ModTen(n: nat, p: nat)
    requires p >= 1
    ensures n % (10 * p) == 10 * ((n / 10) % p) + n % 10
  {
    var q, r := n / 10, n % 10;
    var a, b := q / p, q % p;
    assert n == 10 * q + r;
    assert q == p * a + b;
    assert 10 * q == (10 * p) * a + 10 * b;
    ModUnique(n, 10 * p, a, 10 * b + r);
  }

  /** Two `k`-digit suffixes agree exactly when the numbers agree modulo 10^k. */
  lemma {:induction false} FixedAgree(n: nat, m: nat, k: nat)
    ensures Fixed(n, k) == Fixed(m, k) <==> n % Pow10(k) == m % Pow10(k)
  {
    if k > 0 {
      FixedAgree(n / 10, m / 10, k - 1);
      FixedStep(n, m, k);
      ModStep(n, m, Pow10(k - 1));
    }
  }

  /** Two suffixes agree exactly when their last digits and the suffixes before them agree. */
  lemma FixedStep(n: nat, m: nat, k: nat)
    requires k > 0
    ensures Fixed(n, k) == Fixed(m, k) <==> Fixed(n / 10, k - 1) == Fixed(m / 10, k - 1) && n % 10 == m % 10
  {
    var fn, fm := Fixed(n / 10, k - 1), Fixed(m / 10, k - 1);
    assert Fixed(n, k) == fn + [DigitChar(n % 10)];
    assert Fixed(m, k) == fm + [DigitChar(m % 10)];
    if Fixed(n, k) == Fixed(m, k) {
      assert fn == Fixed(n, k)[..k - 1] && fm == Fixed(m, k)[..k - 1];
      assert DigitChar(n % 10) == Fixed(n, k)[k - 1];
    }
  }

  /** Two numbers agree modulo 10·p exactly when their last digits agree and their tens agree modulo p. */
  lemma ModStep(n: nat, m: nat, p: nat)
    requires p >= 1
    ensures n % (10 * p) == m % (10 * p) <==> (n / 10) % p == (m / 10) % p && n % 10 == m % 10
  {
    ModTen(n, p);
    ModTen(m, p);
    if n % (10 * p) == m % (10 * p) {
      var x := n % (10 * p);
      ModUnique(x, 10, (n / 10) % p, n % 10);
      ModUnique(x, 10, (m / 10) % p, m % 10);
    }
  }

  /**
   * For clock readings of eight or more digits (every reading since 1970-01-01
   * 02:46:40 UTC), two ids are equal exactly when the readings agree modulo 10^8:
   * readings 10^8 ms (about 27.8 hours) apart collide, nearer ones never do.
   */
  lemma OrderIdsCollideModulo(t1: nat, t2: nat)
    requires t1 >= 10000000 && t2 >= 10000000
    ensures OrderId(t1) == OrderId(t2) <==> t1 % 100000000 == t2 % 100000000
  {
    assert Pow10(7) == 10000000 && Pow10(8) == 100000000;
    DecimalLength(t1, 7);
    DecimalLength(t2, 7);
    LastDigits(t1, 8);
    LastDigits(t2, 8);
    FixedAgree(t1, t2, 8);
    var s1, s2 := SliceLast(Decimal(t1), 8), SliceLast(Decimal(t2), 8);
    if OrderId(t1) == OrderId(t2) {
      assert s1 == OrderId(t1)[3..] && s2 == OrderId(t2)[3..];
    }
  }

  /** The id of such a reading is "ORD" followed by exactly eight digits. */
  lemma OrderIdShape(t: nat)
    requires t >= 10000000
    ensures |OrderId(t)| == 11
  {
    assert Pow10(7) == 10000000;
    DecimalLength(t, 7);
  }
}
