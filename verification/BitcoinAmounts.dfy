/** Bitcoin amounts in millisatoshi and their decimal BTC text (src/connectors/bitcoinProtocol.ts). */
module BitcoinAmounts {
  import opened Wrappers
  import opened Decimals
  import opened Money

  const MSAT_PER_SAT: nat := 1000
  const MSAT_PER_BTC: nat := 100_000_000_000
  const MAX_BITCOIN_MSAT: nat := 21_000_000 * MSAT_PER_BTC

  datatype AmountError = InvalidAmount | NotSatoshiAligned | OutsideSupply | NotAtomic

  function ParseBtc(raw: string, onchain: bool): (r: Result<string, AmountError>) {
    match DecimalParts(raw)
    case None => Err(if onchain then NotSatoshiAligned else InvalidAmount)
    case Some((whole, fraction)) => PartsToMsat(whole, fraction, onchain)
  }

  function PartsToMsat(whole: string, fraction: string, onchain: bool): (r: Result<string, AmountError>)
    requires AllDigits(whole) && AllDigits(fraction)
  {
    if !Canonical(whole) || |fraction| > (if onchain then 8 else 11) then
      Err(if onchain then NotSatoshiAligned else InvalidAmount)
    else
      var amount := MSAT_PER_BTC * Value(whole) + Value(FitEnd(fraction, 11));
      if amount > MAX_BITCOIN_MSAT then Err(OutsideSupply) else Ok(Decimal(amount))
  }

  /** Division form of the text: the quotient, and the remainder padded to eleven digits and trimmed. */
  function FormatMsat(value: string): (r: Result<string, AmountError>) {
    match ParseAtomic(value)
    case Err(_) => Err(NotAtomic)
    case Ok(n) =>
      Ok(Joined(Decimal(n / MSAT_PER_BTC), TrimZeros(PadStart(Decimal(n % MSAT_PER_BTC), 11))))
  }

  function MsatToSats(value: string): (r: Result<nat, AmountError>) {
    match ParseAtomic(value)
    case Err(_) => Err(NotAtomic)
    case Ok(n) => if n % MSAT_PER_SAT != 0 then Err(NotSatoshiAligned) else Ok(n / MSAT_PER_SAT)
  }

  function SatsToMsat(sats: int): (r: Result<string, AmountError>) {
    if sats < 0 then Err(InvalidAmount)
    else if sats * MSAT_PER_SAT > MAX_ATOMIC then Err(NotAtomic)
    else Ok(Decimal(sats * MSAT_PER_SAT))
  }

  lemma SatsRoundTrip(sats: nat)
    requires sats * MSAT_PER_SAT <= MAX_ATOMIC
    ensures SatsToMsat(sats).Ok? && MsatToSats(SatsToMsat(sats).value) == Ok(sats)
  {
    ParseExactlyPrints(Decimal(sats * MSAT_PER_SAT), sats * MSAT_PER_SAT);
  }

  /** Millisatoshis are satoshis exactly when they are a whole number of them, and satoshis are millisatoshis exactly when
      they are not negative and fit 256 bits; what is refused is refused for just that. */
  lemma {:induction false} SatsIff(value: string, sats: nat)
    ensures MsatToSats(value) == Ok(sats) <==> sats * 1000 <= MAX_ATOMIC && value == Decimal(sats * 1000)
    ensures MsatToSats(value) == Err(NotSatoshiAligned) <==> ParseAtomic(value).Ok? && ParseAtomic(value).value % 1000 != 0
    ensures MsatToSats(value) == Err(NotAtomic) <==> ParseAtomic(value).Err?
    ensures SatsToMsat(sats) == if sats * 1000 <= MAX_ATOMIC then Ok(Decimal(sats * 1000)) else Err(NotAtomic)
  {
    ParseExactlyPrints(value, sats * 1000);
    if ParseAtomic(value).Ok? {
      var n := ParseAtomic(value).value;
      ParseExactlyPrints(value, n);
      assert n == 1000 * (n / 1000) + n % 1000;
    }
  }

  lemma NegativeSats(sats: int)
    requires sats < 0
    ensures SatsToMsat(sats) == Err(InvalidAmount)
  {}

  lemma {:induction false} TenTo11(n: nat)
    ensures Shift(n, 11) == MSAT_PER_BTC * n
  {
    TenTo13(n);
    ShiftAgain(n, 11, 2);
    assert Shift(Shift(n, 11), 1) == 10 * Shift(n, 11);
    assert Shift(Shift(n, 11), 2) == 100 * Shift(n, 11);
  }

  lemma {:induction false} DecimalInjective(m: nat, n: nat)
    ensures Decimal(m) == Decimal(n) <==> m == n
  {
    ValueOfDecimal(m);
    ValueOfDecimal(n);
  }

  /** The amount computed from the parts is the one they denote. */
  lemma {:induction false} PartsDenote(whole: string, fraction: string, n: nat)
    requires AllDigits(whole) && AllDigits(fraction) && |fraction| <= 11
    ensures Denotes(whole, fraction, 11, n) <==> n == MSAT_PER_BTC * Value(whole) + Value(FitEnd(fraction, 11))
  {
    var m := Shift(Value(whole), 11) + Value(FitEnd(fraction, 11));
    PaddedDenotes(whole, fraction, 11);
    if Denotes(whole, fraction, 11, n) {
      ShiftInjective(m, n, |fraction|);
    }
    TenTo11(Value(whole));
  }

  lemma {:induction false} PartsToMsatExact(whole: string, fraction: string, onchain: bool, n: nat)
    requires AllDigits(whole) && AllDigits(fraction)
    ensures PartsToMsat(whole, fraction, onchain) == Ok(Decimal(n)) <==>
            && Canonical(whole) && |fraction| <= (if onchain then 8 else 11)
            && Denotes(whole, fraction, 11, n) && n <= MAX_BITCOIN_MSAT
  {
    if |fraction| <= 11 {
      PartsDenote(whole, fraction, n);
      DecimalInjective(MSAT_PER_BTC * Value(whole) + Value(FitEnd(fraction, 11)), n);
    }
  }

  /** Lightning text, white space around it ignored, is parsed as exact eleven-decimal text with a canonical whole
      part, a bounded number of decimals and the supply cap, and as nothing else. */
  lemma {:induction false} ParseBtcIsExact(raw: string, onchain: bool, n: nat)
    ensures ParseBtc(raw, onchain) == Ok(Decimal(n)) <==>
            && DecimalParts(raw).Some? && Canonical(DecimalParts(raw).value.0)
            && |DecimalParts(raw).value.1| <= (if onchain then 8 else 11)
            && Denotes(DecimalParts(raw).value.0, DecimalParts(raw).value.1, 11, n)
            && n <= MAX_BITCOIN_MSAT
  {
    if DecimalParts(raw).Some? {
      PartsToMsatExact(DecimalParts(raw).value.0, DecimalParts(raw).value.1, onchain, n);
    }
  }

  /** Text that is not parsed is outside the supply, or else no such decimal text at all, which on chain is reported as not
      being whole satoshis. */
  lemma {:induction false} ParseBtcRefusals(raw: string, onchain: bool)
    ensures ParseBtc(raw, onchain).Err? ==>
              ParseBtc(raw, onchain).error
              == if DecimalParts(raw).Some? && Canonical(DecimalParts(raw).value.0)
                    && |DecimalParts(raw).value.1| <= (if onchain then 8 else 11)
                 then OutsideSupply
                 else if onchain then NotSatoshiAligned else InvalidAmount
  {}

  lemma {:induction false} PaddedRemainder(n: nat)
    ensures |PadStart(Decimal(n % MSAT_PER_BTC), 11)| == 11
    ensures Value(PadStart(Decimal(n % MSAT_PER_BTC), 11)) == n % MSAT_PER_BTC
  {
    var r := n % MSAT_PER_BTC;
    var digits := Decimal(r);
    ValueOfDecimal(r);
    ValueOfPadStart(digits, 11);
    if |digits| > 11 {
      CanonicalAtLeast(digits);
      ShiftAgain(1, |digits| - 12, 11);
      ShiftGrows(1, Shift(1, |digits| - 12), 11);
      TenTo11(1);
    }
  }

  lemma WholeTail(whole: nat, tail: string)
    requires AllDigits(tail) && |tail| == 11
    ensures Value(Decimal(whole) + tail) == MSAT_PER_BTC * whole + Value(tail)
  {
    ValueConcat(Decimal(whole), tail);
    ValueOfDecimal(whole);
    TenTo11(whole);
  }

  /** A multiple of a power of ten loses at least that many trailing zeros. */
  lemma {:induction false} TrimmedAtMost(s: string, q: nat, zeros: nat)
    requires AllDigits(s) && zeros <= |s| && Value(s) == Shift(q, zeros)
    ensures |TrimZeros(s)| <= |s| - zeros
    decreases zeros
  {
    if zeros > 0 {
      assert DigitValue(s[|s| - 1]) == 0;
      TrimmedAtMost(s[..|s| - 1], q, zeros - 1);
    }
  }

  lemma {:induction false} SatsRemainder(n: nat)
    requires n % MSAT_PER_SAT == 0
    ensures n % MSAT_PER_BTC == 1000 * (n % MSAT_PER_BTC / 1000)
  {
    ThousandsLeft(n / 1000, n / MSAT_PER_BTC, n % MSAT_PER_BTC);
  }

  lemma {:induction false} ThousandsLeft(k: nat, a: nat, r: nat)
    requires 1000 * k == 100_000_000_000 * a + r
    ensures r == 1000 * (r / 1000)
  {
    assert r == 1000 * (k - 100_000_000 * a);
  }

  lemma {:induction false} WholeSatsTrim(n: nat)
    requires n % MSAT_PER_SAT == 0
    ensures |TrimZeros(PadStart(Decimal(n % MSAT_PER_BTC), 11))| <= 8
  {
    PaddedRemainder(n);
    SatsRemainder(n);
    ThreeZeros(n % MSAT_PER_BTC / 1000);
    TrimmedAtMost(PadStart(Decimal(n % MSAT_PER_BTC), 11), n % MSAT_PER_BTC / 1000, 3);
  }

  lemma ThreeZeros(q: nat)
    ensures Shift(q, 3) == 1000 * q
  {
    assert Shift(q, 1) == 10 * q;
    assert Shift(q, 2) == 100 * q;
  }

  /** The two parts of a printed amount denote it. */
  lemma {:induction false} PrintedDenotes(n: nat, onchain: bool)
    requires onchain ==> n % MSAT_PER_SAT == 0
    ensures var whole, fraction := Decimal(n / MSAT_PER_BTC), TrimZeros(PadStart(Decimal(n % MSAT_PER_BTC), 11));
            && AllDigits(fraction) && |fraction| <= (if onchain then 8 else 11)
            && Denotes(whole, fraction, 11, n)
  {
    var whole, tail := Decimal(n / MSAT_PER_BTC), PadStart(Decimal(n % MSAT_PER_BTC), 11);
    PaddedRemainder(n);
    WholeTail(n / MSAT_PER_BTC, tail);
    CutDenotes(whole, tail, |TrimZeros(tail)|);
    if onchain {
      WholeSatsTrim(n);
    }
  }

  /** Formatting and parsing undo each other up to the supply cap, in on-chain mode for whole satoshis. */
  lemma {:induction false} BtcRoundTrip(value: string, onchain: bool)
    requires ParseAtomic(value).Ok? && ParseAtomic(value).value <= MAX_BITCOIN_MSAT
    requires onchain ==> ParseAtomic(value).value % MSAT_PER_SAT == 0
    ensures FormatMsat(value).Ok? && ParseBtc(FormatMsat(value).value, onchain) == Ok(value)
  {
    var n := ParseAtomic(value).value;
    var whole, fraction := Decimal(n / MSAT_PER_BTC), TrimZeros(PadStart(Decimal(n % MSAT_PER_BTC), 11));
    ParseExactlyPrints(value, n);
    PrintedDenotes(n, onchain);
    PartsOfJoined(whole, fraction);
    ValueOfDecimal(n / MSAT_PER_BTC);
    ParseBtcIsExact(Joined(whole, fraction), onchain, n);
  }

  /** The division form agrees with the padding form of the general formatter at eleven decimals. */
  lemma FormatsAgree(value: string)
    requires ParseAtomic(value).Ok?
    ensures FormatMsat(value) == Ok(FormatAtomic(value, 11, true).value)
  {
    var n := ParseAtomic(value).value;
    var (whole, tail) := CutAt(value, 11);
    ValueOfPadStart(value, 12);
    ValueConcat(whole, tail);
    TenTo11(Value(whole));
    ValueBelow(tail);
    TenTo11(1);
    assert Value(whole) == n / MSAT_PER_BTC && Value(tail) == n % MSAT_PER_BTC;
    PaddedRemainder(n);
    SameWidthSameValue(tail, PadStart(Decimal(n % MSAT_PER_BTC), 11));
    CutWholeCanonical(value, 11);
    DecimalOfValue(whole);
  }

  lemma CutWholeCanonical(value: string, d: nat)
    requires Canonical(value)
    ensures Canonical(CutAt(value, d).0)
  {
    var whole := CutAt(value, d).0;
    if |value| > d + 1 {
      assert whole[0] == value[0];
    } else {
      assert |whole| == 1;
    }
  }
}
