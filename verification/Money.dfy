/** Exact money strings: canonical atomic amounts (src/lib/money.ts) and decimal text in major units. */
module Money {
  import opened Wrappers
  import opened Decimals

  const MAX_ATOMIC: nat := 0xffff_ffff_ffff_ffff_ffff_ffff_ffff_ffff_ffff_ffff_ffff_ffff_ffff_ffff_ffff_ffff
  const MAX_SAFE: nat := 9007199254740991
  const MAX_DECIMALS: nat := 30

  datatype MoneyError = NotCanonical | ExceedsLimit | BadDecimals | NotDecimal | TooPrecise

  function PrintAtomic(n: nat): (r: Result<string, MoneyError>) {
    if n > MAX_ATOMIC then Err(ExceedsLimit) else Ok(Decimal(n))
  }

  function ParseAtomic(s: string): (r: Result<nat, MoneyError>) {
    if !Canonical(s) then Err(NotCanonical)
    else if Value(s) > MAX_ATOMIC then Err(ExceedsLimit)
    else Ok(Value(s))
  }

  /** Parsing accepts exactly the prints of 256-bit amounts, so canonical strings are unique. */
  lemma ParseExactlyPrints(s: string, n: nat)
    ensures ParseAtomic(s) == Ok(n) <==> n <= MAX_ATOMIC && s == Decimal(n)
  {
    ValueOfDecimal(n);
    if Canonical(s) {
      DecimalOfValue(s);
    }
  }

  /** Every accepted amount fits the 78-character storage field. */
  lemma {:induction false} FitsStorageField(s: string)
    requires ParseAtomic(s).Ok?
    ensures 1 <= |s| <= 78
  {
    if |s| > 78 {
      CanonicalAtLeast(s);
      ShiftAgain(1, |s| - 79, 78);
      ShiftGrows(1, Shift(1, |s| - 79), 78);
      TenTo78();
    }
  }

  lemma {:induction false} TenTo78()
    ensures Shift(1, 78) > MAX_ATOMIC
  {
    TenTo13(1);
    TenTo13(Shift(1, 13));
    TenTo13(Shift(1, 26));
    TenTo13(Shift(1, 39));
    TenTo13(Shift(1, 52));
    TenTo13(Shift(1, 65));
    ShiftAgain(1, 13, 13);
    ShiftAgain(1, 26, 13);
    ShiftAgain(1, 39, 13);
    ShiftAgain(1, 52, 13);
    ShiftAgain(1, 65, 13);
  }

  lemma {:induction false} TenTo13(n: nat)
    ensures Shift(n, 13) == 10_000_000_000_000 * n
  {
    assert Shift(n, 1) == 10 * n;
    assert Shift(n, 2) == 100 * n;
    assert Shift(n, 4) == 10_000 * n;
    assert Shift(n, 6) == 1_000_000 * n;
    assert Shift(n, 8) == 100_000_000 * n;
    assert Shift(n, 10) == 10_000_000_000 * n;
    assert Shift(n, 12) == 1_000_000_000_000 * n;
  }

  // Text in major units.

  function PadStart(s: string, width: nat): (r: string)
    requires AllDigits(s)
    ensures AllDigits(r) && |r| == if |s| < width then width else |s|
  {
    if |s| < width then Zeros(width - |s|) + s else s
  }

  /** Drops the trailing zeros. */
  function TrimZeros(s: string): (r: string)
    ensures |r| <= |s| && r == s[..|r|] && AllZeros(s[|r|..])
    ensures r != [] ==> r[|r| - 1] != '0'
  {
    if s != [] && s[|s| - 1] == '0' then TrimZeros(s[..|s| - 1]) else s
  }

  predicate AllZeros(s: string) {
    forall i :: 0 <= i < |s| ==> s[i] == '0'
  }

  /** The first `width` digits, extended with zeros on the right where there are fewer. */
  function FitEnd(s: string, width: nat): (r: string)
    requires AllDigits(s)
    ensures AllDigits(r) && |r| == width
  {
    if |s| < width then s + Zeros(width - |s|) else s[..width]
  }

  function Joined(whole: string, fraction: string): (text: string) {
    if fraction == [] then whole else whole + "." + fraction
  }

  function FormatAtomic(value: string, decimals: int, trim: bool): (r: Result<string, MoneyError>) {
    if decimals < 0 || decimals > MAX_DECIMALS then Err(BadDecimals)
    else if ParseAtomic(value).Err? then Err(ParseAtomic(value).error)
    else if decimals == 0 then Ok(value)
    else
      var (whole, fraction) := CutAt(value, decimals);
      Ok(Joined(whole, if trim then TrimZeros(fraction) else fraction))
  }

  /** The digits before and after the decimal point, at least one before it. */
  function CutAt(value: string, decimals: nat): (parts: (string, string))
    requires AllDigits(value)
    ensures AllDigits(parts.0) && AllDigits(parts.1) && parts.0 != [] && |parts.1| == decimals
    ensures parts.0 + parts.1 == PadStart(value, decimals + 1)
  {
    var padded := PadStart(value, decimals + 1);
    (padded[..|padded| - decimals], padded[|padded| - decimals..])
  }

  /** The position of the first dot, or the length when there is none. */
  function DotAt(s: string): (i: nat)
    ensures i <= |s| && (i < |s| ==> s[i] == '.') && forall j :: 0 <= j < i ==> s[j] != '.'
  {
    if s == [] || s[0] == '.' then 0 else 1 + DotAt(s[1..])
  }

  /** Digits, optionally followed by a dot and more digits: the whole and the fractional part. */
  function SplitDecimal(raw: string): (parts: Option<(string, string)>)
    ensures parts.Some? ==>
              && AllDigits(parts.value.0) && AllDigits(parts.value.1) && parts.value.0 != []
              && raw == Joined(parts.value.0, parts.value.1)
  {
    var i := DotAt(raw);
    var whole, fraction := raw[..i], if i < |raw| then raw[i + 1..] else [];
    if whole != [] && AllDigits(whole) && AllDigits(fraction) && (i < |raw| ==> fraction != [])
    then Some((whole, fraction)) else None
  }

  /** The white space and line terminators that surround no amount. */
  predicate IsSpace(c: char) {
    || c == ' ' || '\t' <= c <= '\r' || c == '\U{00A0}' || c == '\U{1680}' || '\U{2000}' <= c <= '\U{200A}'
    || c == '\U{2028}' || c == '\U{2029}' || c == '\U{202F}' || c == '\U{205F}' || c == '\U{3000}' || c == '\U{FEFF}'
  }

  function TrimStart(s: string): (r: string)
    ensures |r| <= |s| && r == s[|s| - |r|..] && (r != [] ==> !IsSpace(r[0]))
    ensures forall i :: 0 <= i < |s| - |r| ==> IsSpace(s[i])
  {
    if s != [] && IsSpace(s[0]) then TrimStart(s[1..]) else s
  }

  function TrimEnd(s: string): (r: string)
    ensures |r| <= |s| && r == s[..|r|] && (r != [] ==> !IsSpace(r[|r| - 1]))
    ensures forall i :: |r| <= i < |s| ==> IsSpace(s[i])
  {
    if s != [] && IsSpace(s[|s| - 1]) then TrimEnd(s[..|s| - 1]) else s
  }

  /** The text without surrounding white space. */
  function Trim(s: string): (r: string)
    ensures s != [] && !IsSpace(s[0]) && !IsSpace(s[|s| - 1]) ==> r == s
  {
    TrimEnd(TrimStart(s))
  }

  /** The parts of a decimal that may be surrounded by white space. */
  function DecimalParts(raw: string): (parts: Option<(string, string)>)
    ensures parts.Some? ==> AllDigits(parts.value.0) && AllDigits(parts.value.1) && parts.value.0 != []
  {
    SplitDecimal(Trim(raw))
  }

  function MajorToAtomic(raw: string, decimals: nat): (r: Result<string, MoneyError>) {
    match DecimalParts(raw)
    case None => Err(NotDecimal)
    case Some((whole, fraction)) => PartsToAtomic(whole, fraction, decimals)
  }

  function PartsToAtomic(whole: string, fraction: string, decimals: nat): (r: Result<string, MoneyError>)
    requires AllDigits(whole) && AllDigits(fraction)
  {
    if |fraction| > decimals && !AllZeros(fraction[decimals..]) then Err(TooPrecise)
    else PrintAtomic(Shift(Value(whole), decimals) + Value(FitEnd(fraction, decimals)))
  }

  lemma SplitOfJoined(whole: string, fraction: string)
    requires AllDigits(whole) && AllDigits(fraction) && whole != []
    ensures SplitDecimal(Joined(whole, fraction)) == Some((whole, fraction))
  {
    var raw := Joined(whole, fraction);
    var i := DotAt(raw);
    assert forall j :: 0 <= j < |whole| ==> raw[j] == whole[j] && IsDigit(raw[j]);
    assert i == |whole| by {
      assert |whole| < |raw| ==> raw[|whole|] == '.';
    }
    assert raw[..i] == whole;
    assert i < |raw| ==> raw[i + 1..] == fraction;
  }

  lemma DigitsAround(whole: string, fraction: string)
    requires AllDigits(whole) && AllDigits(fraction) && whole != []
    ensures var raw := Joined(whole, fraction);
            raw != [] && IsDigit(raw[0]) && IsDigit(raw[|raw| - 1])
  {
    var raw := Joined(whole, fraction);
    assert raw[0] == whole[0];
    if fraction != [] {
      assert raw[|raw| - 1] == fraction[|fraction| - 1];
    }
  }

  lemma NothingToTrim(s: string)
    requires s != [] && IsDigit(s[0]) && IsDigit(s[|s| - 1])
    ensures Trim(s) == s
  {}

  /** A printed decimal has nothing to trim, so it is read back in its parts. */
  lemma PartsOfJoined(whole: string, fraction: string)
    requires AllDigits(whole) && AllDigits(fraction) && whole != []
    ensures DecimalParts(Joined(whole, fraction)) == Some((whole, fraction))
  {
    DigitsAround(whole, fraction);
    NothingToTrim(Joined(whole, fraction));
    SplitOfJoined(whole, fraction);
  }

  /** `n` units of ten to the minus `decimals` are exactly the decimal with these two parts. */
  ghost predicate Denotes(whole: string, fraction: string, decimals: nat, n: nat)
    requires AllDigits(whole) && AllDigits(fraction)
  {
    DenotesNumbers(Value(whole), Value(fraction), |fraction|, decimals, n)
  }

  /** The whole part `w` and the `k` digits of the fraction `f` are worth `n` units of ten to the minus `decimals`. */
  ghost predicate DenotesNumbers(w: nat, f: nat, k: nat, decimals: nat, n: nat) {
    Shift(n, k) == Shift(Shift(w, k) + f, decimals)
  }

  lemma {:induction false} ScaleShort(w: nat, f: nat, k: nat, d: nat)
    requires k <= d
    ensures Shift(Shift(w, d) + Shift(f, d - k), k) == Shift(Shift(w, k) + f, d)
  {
    ShiftSum(Shift(w, d), Shift(f, d - k), k);
    ShiftSum(Shift(w, k), f, d);
    ShiftSwap(w, d, k);
    ShiftTo(f, d - k, k, d);
  }

  lemma {:induction false} ScaleLong(w: nat, f: nat, k: nat, d: nat)
    requires k >= d
    ensures Shift(Shift(w, d) + f, k) == Shift(Shift(w, k) + Shift(f, k - d), d)
  {
    ShiftSum(Shift(w, d), f, k);
    ShiftSum(Shift(w, k), Shift(f, k - d), d);
    ShiftSwap(w, d, k);
    ShiftTo(f, k - d, d, k);
  }

  lemma {:induction false} PaddedDenotes(whole: string, fraction: string, d: nat)
    requires AllDigits(whole) && AllDigits(fraction) && |fraction| <= d
    ensures Denotes(whole, fraction, d, Shift(Value(whole), d) + Value(FitEnd(fraction, d)))
  {
    var k := |fraction|;
    assert FitEnd(fraction, d) == fraction + Zeros(d - k);
    ValueConcat(fraction, Zeros(d - k));
    ValueOfZeros(Zeros(d - k));
    ScaleShort(Value(whole), Value(fraction), k, d);
  }

  lemma {:induction false} TruncatedDenotes(whole: string, fraction: string, d: nat)
    requires AllDigits(whole) && AllDigits(fraction) && |fraction| > d && AllZeros(fraction[d..])
    ensures Denotes(whole, fraction, d, Shift(Value(whole), d) + Value(FitEnd(fraction, d)))
  {
    var head, extra := fraction[..d], fraction[d..];
    assert fraction == head + extra;
    ValueConcat(head, extra);
    ValueOfZeros(extra);
    ScaleLong(Value(whole), Value(head), |fraction|, d);
  }

  lemma {:induction false} RemainderNone(w: nat, h: nat, r: nat, n: nat, k: nat, d: nat)
    requires k > d && r < Shift(1, k - d)
    requires Shift(n, k) == Shift(Shift(w, k) + (Shift(h, k - d) + r), d)
    ensures r == 0
  {
    ShiftTo(n, k - d, d, k);
    ShiftInjective(Shift(n, k - d), Shift(w, k) + (Shift(h, k - d) + r), d);
    ShiftTo(w, d, k - d, k);
    ShiftSum(Shift(w, d), h, k - d);
    ShiftRemainder(n, Shift(w, d) + h, r, k - d);
  }

  lemma {:induction false} TooPreciseDenotesNothing(whole: string, fraction: string, d: nat, n: nat)
    requires AllDigits(whole) && AllDigits(fraction) && |fraction| > d && !AllZeros(fraction[d..])
    ensures !Denotes(whole, fraction, d, n)
  {
    var head, extra := fraction[..d], fraction[d..];
    assert fraction == head + extra;
    ValueConcat(head, extra);
    ValueBelow(extra);
    if Value(extra) == 0 {
      ZeroValue(extra);
    }
    if Denotes(whole, fraction, d, n) {
      RemainderNone(Value(whole), Value(head), Value(extra), n, |fraction|, d);
    }
  }

  lemma {:induction false} PartsExact(whole: string, fraction: string, d: nat, n: nat)
    requires AllDigits(whole) && AllDigits(fraction)
    ensures PartsToAtomic(whole, fraction, d) == Ok(Decimal(n)) <==>
            n <= MAX_ATOMIC && Denotes(whole, fraction, d, n)
  {
    if |fraction| > d && !AllZeros(fraction[d..]) {
      TooPreciseDenotesNothing(whole, fraction, d, n);
    } else {
      var m := Shift(Value(whole), d) + Value(FitEnd(fraction, d));
      assert Denotes(whole, fraction, d, m) by {
        if |fraction| <= d {
          PaddedDenotes(whole, fraction, d);
        } else {
          TruncatedDenotes(whole, fraction, d);
        }
      }
      if Denotes(whole, fraction, d, n) {
        ShiftInjective(m, n, |fraction|);
      }
      if Decimal(m) == Decimal(n) {
        ValueOfDecimal(m);
        ValueOfDecimal(n);
      }
    }
  }

  /** Exactness, both ways: major-unit text, white space around it ignored, converts to `n` atomic units if and only
      if it denotes exactly `n` units of 10^-decimals and `n` fits in 256 bits; nothing is ever rounded. */
  lemma MajorToAtomicExact(raw: string, d: nat, n: nat)
    ensures MajorToAtomic(raw, d) == Ok(Decimal(n)) <==>
            && DecimalParts(raw).Some? && n <= MAX_ATOMIC
            && Denotes(DecimalParts(raw).value.0, DecimalParts(raw).value.1, d, n)
  {
    if DecimalParts(raw).Some? {
      PartsExact(DecimalParts(raw).value.0, DecimalParts(raw).value.1, d, n);
    }
  }

  lemma {:induction false} ValueOfTrailing(fraction: string, zeros: string)
    requires AllDigits(fraction) && AllZeros(zeros)
    ensures AllDigits(fraction + zeros) && Value(fraction + zeros) == Shift(Value(fraction), |zeros|)
  {
    ValueOfZeros(zeros);
    ValueConcat(fraction, zeros);
  }

  lemma {:induction false} DenotesByNumbers(w: nat, f: nat, k: nat, d: nat, n: nat)
    requires Shift(n, k) == Shift(Shift(w, k) + f, d)
    ensures DenotesNumbers(w, f, k, d, n)
  {}

  lemma {:induction false} CutNumbers(w: nat, f: nat, k: nat, z: nat, d: nat, n: nat)
    requires d == k + z && n == Shift(w, d) + Shift(f, z)
    ensures DenotesNumbers(w, f, k, d, n)
  {
    ScaleShort(w, f, k, d);
    DenotesByNumbers(w, f, k, d, n);
  }

  /** A padded print, cut `d` digits from the right, denotes the amount it came from, trimmed or not. */
  lemma {:induction false} CutDenotes(whole: string, tail: string, k: nat)
    requires AllDigits(whole) && AllDigits(tail) && k <= |tail| && AllZeros(tail[k..])
    ensures Denotes(whole, tail[..k], |tail|, Value(whole + tail))
  {
    var fraction, zeros := tail[..k], tail[k..];
    assert tail == fraction + zeros;
    ValueOfTrailing(fraction, zeros);
    ValueConcat(whole, tail);
    CutNumbers(Value(whole), Value(fraction), k, |zeros|, |tail|, Value(whole + tail));
  }

  lemma ValueOfPadStart(s: string, width: nat)
    requires AllDigits(s)
    ensures Value(PadStart(s, width)) == Value(s)
  {
    if |s| < width {
      ValueOfZeros(Zeros(width - |s|));
      ValueConcat(Zeros(width - |s|), s);
      ShiftZero(|s|);
    }
  }

  /** Printing in major units and converting back returns the amount, for every asset precision and
      every 256-bit amount, with or without trailing zeros. */
  lemma MajorRoundTrip(value: string, d: nat, trim: bool)
    requires d <= MAX_DECIMALS && ParseAtomic(value).Ok?
    ensures FormatAtomic(value, d, trim).Ok?
    ensures MajorToAtomic(FormatAtomic(value, d, trim).value, d) == Ok(value)
  {
    var n := Value(value);
    ParseExactlyPrints(value, n);
    if d == 0 {
      assert FormatAtomic(value, d, trim) == Ok(Joined(value, []));
      PartsOfJoined(value, []);
      MajorToAtomicExact(value, 0, n);
    } else {
      PaddedRoundTrip(value, d, trim, n);
    }
  }

  lemma {:induction false} CutPartsDenote(value: string, d: nat, k: nat)
    requires AllDigits(value) && k <= d && AllZeros(CutAt(value, d).1[k..])
    ensures Denotes(CutAt(value, d).0, CutAt(value, d).1[..k], d, Value(value))
  {
    ValueOfPadStart(value, d + 1);
    CutDenotes(CutAt(value, d).0, CutAt(value, d).1, k);
  }

  /** The parts a padded print is joined from denote the amount. */
  lemma {:induction false} PrintedParts(value: string, d: nat, trim: bool, n: nat) returns (whole: string, fraction: string)
    requires 0 < d <= MAX_DECIMALS && ParseAtomic(value) == Ok(n)
    ensures AllDigits(whole) && AllDigits(fraction) && whole != []
    ensures FormatAtomic(value, d, trim) == Ok(Joined(whole, fraction)) && Denotes(whole, fraction, d, n)
  {
    var tail := CutAt(value, d).1;
    whole := CutAt(value, d).0;
    fraction := if trim then TrimZeros(tail) else tail;
    assert fraction == tail[..|fraction|];
    CutPartsDenote(value, d, |fraction|);
  }

  lemma {:induction false} PaddedRoundTrip(value: string, d: nat, trim: bool, n: nat)
    requires 0 < d <= MAX_DECIMALS && ParseAtomic(value) == Ok(n)
    ensures FormatAtomic(value, d, trim).Ok?
    ensures MajorToAtomic(FormatAtomic(value, d, trim).value, d) == Ok(Decimal(n))
  {
    var whole, fraction := PrintedParts(value, d, trim, n);
    PartsOfJoined(whole, fraction);
    PartsExact(whole, fraction, d, n);
  }
}
