/** Base-10 digit strings: printing an unbounded integer and reading one back. */
module Decimals {

  predicate IsDigit(c: char) {
    '0' <= c <= '9'
  }

  predicate AllDigits(s: string) {
    forall i :: 0 <= i < |s| ==> IsDigit(s[i])
  }

  function DigitChar(d: nat): (c: char)
    requires d < 10
    ensures IsDigit(c) && c as int - '0' as int == d
  {
    (d + '0' as int) as char
  }

  function DigitValue(c: char): (d: nat)
    requires IsDigit(c)
    ensures d < 10 && DigitChar(d) == c
  {
    c as int - '0' as int
  }

  /** The decimal string of an integer, without leading zeros. */
  function Decimal(n: nat): (s: string)
    ensures |s| > 0 && AllDigits(s)
  {
    if n < 10 then [DigitChar(n)] else Decimal(n / 10) + [DigitChar(n % 10)]
  }

  /** The integer a digit string denotes; the empty string denotes zero. */
  function Value(s: string): (n: nat)
    requires AllDigits(s)
  {
    if s == [] then 0 else 10 * Value(s[..|s| - 1]) + DigitValue(s[|s| - 1])
  }

  /** `n` times ten to the `k`. */
  function Shift(n: nat, k: nat): (r: nat)
    ensures r >= n
  {
    if k == 0 then n else 10 * Shift(n, k - 1)
  }

  /** A digit string with no superfluous leading zero. */
  predicate Canonical(s: string) {
    |s| > 0 && AllDigits(s) && (|s| > 1 ==> s[0] != '0')
  }

  function Zeros(k: nat): (s: string)
    ensures |s| == k && AllDigits(s) && forall i :: 0 <= i < k ==> s[i] == '0'
  {
    seq(k, i => '0')
  }

  lemma {:induction false} ValueOfDecimal(n: nat)
    ensures Value(Decimal(n)) == n && Canonical(Decimal(n))
    ensures n > 0 ==> Decimal(n)[0] != '0'
  {
    if n >= 10 {
      ValueOfDecimal(n / 10);
      var s := Decimal(n);
      assert s[..|s| - 1] == Decimal(n / 10);
    }
  }

  /** Canonical strings are unique: each is the print of the integer it denotes. */
  lemma {:induction false} DecimalOfValue(s: string)
    requires Canonical(s)
    ensures Decimal(Value(s)) == s
    ensures |s| > 1 ==> Value(s) >= 10
  {
    if |s| > 1 {
      var t := s[..|s| - 1];
      DecimalOfValue(t);
      assert Value(t) > 0 by {
        if |t| == 1 {
          assert t[0] == s[0];
          assert t[..0] == [];
        }
      }
      assert s == t + [s[|s| - 1]];
    } else {
      assert s[..0] == [];
    }
  }

  lemma {:induction false} ShiftAgain(n: nat, a: nat, b: nat)
    ensures Shift(Shift(n, a), b) == Shift(n, a + b)
  {
    if b > 0 {
      ShiftAgain(n, a, b - 1);
      assert a + b - 1 == a + (b - 1);
    }
  }

  lemma {:induction false} ShiftTo(n: nat, a: nat, b: nat, c: nat)
    requires a + b == c
    ensures Shift(Shift(n, a), b) == Shift(n, c)
  {
    ShiftAgain(n, a, b);
  }

  lemma {:induction false} ShiftSwap(n: nat, a: nat, b: nat)
    ensures Shift(Shift(n, a), b) == Shift(Shift(n, b), a)
  {
    ShiftTo(n, a, b, a + b);
    ShiftTo(n, b, a, a + b);
  }

  lemma {:induction false} ShiftSum(m: nat, n: nat, k: nat)
    ensures Shift(m + n, k) == Shift(m, k) + Shift(n, k)
  {
    if k > 0 {
      ShiftSum(m, n, k - 1);
    }
  }

  lemma {:induction false} ShiftZero(k: nat)
    ensures Shift(0, k) == 0
  {
    if k > 0 {
      ShiftZero(k - 1);
    }
  }

  lemma {:induction false} ShiftInjective(m: nat, n: nat, k: nat)
    requires Shift(m, k) == Shift(n, k)
    ensures m == n
  {
    if k > 0 {
      ShiftInjective(m, n, k - 1);
    }
  }

  lemma {:induction false} ShiftGrows(m: nat, n: nat, k: nat)
    requires m <= n
    ensures Shift(m, k) <= Shift(n, k)
  {
    if k > 0 {
      ShiftGrows(m, n, k - 1);
    }
  }

  /** A number below ten to the `k` is never the difference of two multiples of it, except zero. */
  lemma {:induction false} ShiftRemainder(a: nat, b: nat, r: nat, k: nat)
    requires r < Shift(1, k) && Shift(a, k) == Shift(b, k) + r
    ensures r == 0 && a == b
  {
    if k > 0 {
      ShiftRemainder(a, b, r / 10, k - 1);
    }
  }

  lemma {:induction false} ValueConcat(s: string, t: string)
    requires AllDigits(s) && AllDigits(t)
    ensures AllDigits(s + t)
    ensures Value(s + t) == Shift(Value(s), |t|) + Value(t)
  {
    if t == [] {
      assert s + t == s;
    } else {
      var t' := t[..|t| - 1];
      ValueConcat(s, t');
      assert (s + t)[..|s + t| - 1] == s + t' && (s + t)[|s + t| - 1] == t[|t| - 1];
    }
  }

  lemma {:induction false} ValueOfZeros(s: string)
    requires forall i :: 0 <= i < |s| ==> s[i] == '0'
    ensures AllDigits(s) && Value(s) == 0
  {
    if s != [] {
      ValueOfZeros(s[..|s| - 1]);
    }
  }

  lemma {:induction false} ZeroValue(s: string)
    requires AllDigits(s) && Value(s) == 0
    ensures forall i :: 0 <= i < |s| ==> s[i] == '0'
  {
    if s != [] {
      ZeroValue(s[..|s| - 1]);
      assert DigitChar(0) == '0';
    }
  }

  lemma {:induction false} ValueBelow(s: string)
    requires AllDigits(s)
    ensures Value(s) < Shift(1, |s|)
  {
    if s != [] {
      ValueBelow(s[..|s| - 1]);
    }
  }

  lemma {:induction false} CanonicalAtLeast(s: string)
    requires Canonical(s) && |s| > 1
    ensures Value(s) >= Shift(1, |s| - 1)
  {
    var head, tail := s[..1], s[1..];
    assert s == head + tail;
    ValueConcat(head, tail);
    assert head[..0] == [] && Value(head) == DigitValue(s[0]);
    ShiftGrows(1, Value(head), |tail|);
  }

  /** Digit strings of one length are determined by their value. */
  lemma {:induction false} SameWidthSameValue(s: string, t: string)
    requires AllDigits(s) && AllDigits(t) && |s| == |t| && Value(s) == Value(t)
    ensures s == t
  {
    if s != [] {
      var n := |s| - 1;
      SameWidthSameValue(s[..n], t[..n]);
      assert s == s[..n] + [s[n]] && t == t[..n] + [t[n]];
    }
  }
}
