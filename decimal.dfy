/** Decimal rendering of integers, as Python's `str` gives it for an integral
    client id or for the count in a duplicate-payment label, and the
    "starts with 9999" test the ledger applies to client ids. */
module Decimal {

  function Pow10(k: nat): (r: nat)
    ensures r >= 1
  {
    if k == 0 then 1 else 10 * Pow10(k - 1)
  }

  function DigitChar(d: nat): char
    requires d < 10
  {
    "0123456789"[d]
  }

  /** The decimal digits of `n`, most significant first, without leading zeros. */
  function NatString(n: nat): (s: string)
    ensures |s| >= 1
    ensures forall i :: 0 <= i < |s| ==> '0' <= s[i] <= '9'
  {
    if n < 10 then [DigitChar(n)] else NatString(n / 10) + [DigitChar(n % 10)]
  }

  /** `str(n)` for an integer: a leading '-' for negative values. */
  function IntString(n: int): string
  {
    if n < 0 then "-" + NatString(-n) else NatString(n)
  }

  predicate StartsWith(s: string, prefix: string)
  {
    |prefix| <= |s| && s[..|prefix|] == prefix
  }

  /** The ledger's test-account convention: the id's decimal string starts with "9999". */
  predicate IsExcludedId(id: int)
  {
    StartsWith(IntString(id), "9999")
  }

  lemma DigitCharInjective(a: nat, b: nat)
    requires a < 10 && b < 10 && DigitChar(a) == DigitChar(b)
    ensures a == b
  {
  }

  /** Different numbers have different decimal strings. */
  lemma {:induction false} NatStringInjective(a: nat, b: nat)
    requires NatString(a) == NatString(b)
    ensures a == b
  {
    if a < 10 && b < 10 {
      DigitCharInjective(a, b);
    } else if a < 10 || b < 10 {
      assert false;
    } else {
      var sa, sb := NatString(a), NatString(b);
      assert sa[..|sa| - 1] == NatString(a / 10);
      assert sb[..|sb| - 1] == NatString(b / 10);
      NatStringInjective(a / 10, b / 10);
      assert sa[|sa| - 1] == DigitChar(a % 10);
      assert sb[|sb| - 1] == DigitChar(b % 10);
      DigitCharInjective(a % 10, b % 10);
    }
  }

  lemma {:induction false} NatStringLongFromPow10(n: nat, k: nat)
    requires n >= Pow10(k)
    ensures |NatString(n)| >= k + 1
  {
    if k > 0 {
      NatStringLongFromPow10(n / 10, k - 1);
    }
  }

  lemma {:induction false} NatStringShortBelowPow10(n: nat, k: nat)
    requires k >= 1 && n < Pow10(k)
    ensures |NatString(n)| <= k
  {
    if n >= 10 {
      assert Pow10(1) == 10;
      assert k >= 2;
      NatStringShortBelowPow10(n / 10, k - 1);
    }
  }

  lemma MulMonotone(d: nat, x: int, y: int)
    requires x <= y
    ensures d * x <= d * y
  {
  }

  lemma DivUnique(n: nat, d: nat, q: nat, r: nat)
    requires d > 0 && r < d && n == d * q + r
    ensures n / d == q
  {
    var q', r' := n / d, n % d;
    assert n == d * q' + r';
    if q' < q {
      MulMonotone(d, q' + 1, q);
      assert false;
    } else if q < q' {
      MulMonotone(d, q + 1, q');
      assert false;
    }
  }

  lemma DivTen(n: nat, k: nat)
    ensures n / Pow10(k + 1) == (n / 10) / Pow10(k)
  {
    var p := Pow10(k);
    var q, r2, r1 := (n / 10) / p, (n / 10) % p, n % 10;
    assert n / 10 == p * q + r2;
    assert n == 10 * (n / 10) + r1;
    assert n == (10 * p) * q + (10 * r2 + r1) by {
      assert 10 * (p * q + r2) == (10 * p) * q + 10 * r2;
    }
    assert 10 * r2 + r1 < 10 * p;
    DivUnique(n, 10 * p, q, 10 * r2 + r1);
  }

  lemma DivAtMost(n: nat, p: nat)
    requires p >= 1
    ensures n / p <= n
  {
    var q := n / p;
    assert n == p * q + n % p;
    MulMonotone(q, 1, p);
  }

  lemma DivBelow(n: nat, k: nat)
    requires n < 9999
    ensures n / Pow10(k) < 9999
  {
    DivAtMost(n, Pow10(k));
  }

  lemma NineNines()
    ensures NatString(9999) == "9999"
  {
    assert NatString(9) == "9";
    assert NatString(99) == "99";
    assert NatString(999) == "999";
  }

  ghost predicate TruncatesTo9999(n: nat)
  {
    exists k: nat :: n / Pow10(k) == 9999
  }

  lemma ShortNotExcluded(n: nat)
    requires n < 1000
    ensures !StartsWith(NatString(n), "9999") && !TruncatesTo9999(n)
  {
    NatStringShortBelowPow10(n, 3);
    forall k: nat ensures n / Pow10(k) != 9999 { DivBelow(n, k); }
  }

  lemma FourDigitsExcluded(n: nat)
    requires 1000 <= n < 10000
    ensures StartsWith(NatString(n), "9999") <==> n == 9999
    ensures TruncatesTo9999(n) <==> n == 9999
  {
    var s := NatString(n);
    NatStringLongFromPow10(n, 3);
    NatStringShortBelowPow10(n, 4);
    assert s[..4] == s;
    NineNines();
    if s == "9999" {
      NatStringInjective(n, 9999);
    }
    if n == 9999 {
      assert n / Pow10(0) == 9999;
    } else {
      forall k: nat ensures n / Pow10(k) != 9999 {
        if k > 0 {
          DivTen(n, k - 1);
          DivBelow(n / 10, k - 1);
        }
      }
    }
  }

  lemma LongExcludedStep(n: nat)
    requires n >= 10000
    ensures StartsWith(NatString(n), "9999") <==> StartsWith(NatString(n / 10), "9999")
    ensures TruncatesTo9999(n) <==> TruncatesTo9999(n / 10)
  {
    var s, t := NatString(n), NatString(n / 10);
    NatStringLongFromPow10(n / 10, 3);
    assert s == t + [DigitChar(n % 10)];
    assert s[..4] == t[..4];
    if TruncatesTo9999(n / 10) {
      var k: nat :| (n / 10) / Pow10(k) == 9999;
      DivTen(n, k);
    }
    if TruncatesTo9999(n) {
      var k: nat :| n / Pow10(k) == 9999;
      assert k > 0;
      DivTen(n, k - 1);
    }
  }

  /** A non-negative id starts with "9999" exactly when dropping some number
      of its trailing digits leaves 9999. */
  lemma {:induction false} ExcludedNatCharacterized(n: nat)
    ensures StartsWith(NatString(n), "9999") <==> TruncatesTo9999(n)
    decreases n
  {
    if n < 1000 {
      ShortNotExcluded(n);
    } else if n < 10000 {
      FourDigitsExcluded(n);
    } else {
      LongExcludedStep(n);
      ExcludedNatCharacterized(n / 10);
    }
  }

  /** The exclusion never applies to a negative id (its string starts with '-'),
      and applies to a non-negative id exactly when some power-of-ten truncation
      of it equals 9999. */
  lemma ExcludedIdCharacterized(id: int)
    ensures IsExcludedId(id) <==> id >= 0 && TruncatesTo9999(id)
  {
    if id >= 0 {
      ExcludedNatCharacterized(id);
    } else {
      assert IntString(id)[0] == '-';
    }
  }
}
