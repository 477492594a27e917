/** Receipts: exact apportionment of a settlement fee (src/domain/receipt.ts) and the rule of one immutable
    receipt per payment source (src/services/receipt.service.ts). */
module Receipts {
  import opened Wrappers
  import opened Tallies
  import opened Decimals

  datatype FeeError = NotUnsigned | NoPositiveTotal

  function Self(): nat -> nat {
    (x: nat) => x
  }

  /** Each amount's proportional part of the fee, rounded down. */
  function Floors(fee: nat, amounts: seq<nat>, total: nat): (floors: seq<nat>)
    requires total > 0
    ensures |floors| == |amounts|
    ensures forall i :: 0 <= i < |amounts| ==> floors[i] == (fee * amounts[i]) / total
  {
    seq(|amounts|, i requires 0 <= i < |amounts| => (fee * amounts[i]) / total)
  }

  /** One more unit for each of the first `extra` entries. */
  function Bump(xs: seq<nat>, extra: nat): (ys: seq<nat>)
    ensures |ys| == |xs|
    ensures forall i :: 0 <= i < |xs| ==> ys[i] == xs[i] + if i < extra then 1 else 0
  {
    seq(|xs|, i requires 0 <= i < |xs| => xs[i] + if i < extra then 1 else 0)
  }

  function Remainder(fee: nat, amounts: seq<nat>, total: nat): (r: int)
    requires total > 0
  {
    fee - Tally(Floors(fee, amounts, total), Self())
  }

  function Shares(fee: nat, amounts: seq<nat>): (r: Result<seq<nat>, FeeError>) {
    var total := Tally(amounts, Self());
    if amounts == [] then Ok([])
    else if total == 0 then Err(NoPositiveTotal)
    else
      RemainderInRange(fee, amounts);
      Ok(Bump(Floors(fee, amounts, total), Remainder(fee, amounts, total)))
  }

  lemma FloorBounds(fee: nat, amount: nat, total: nat)
    requires total > 0
    ensures 0 <= fee * amount - total * ((fee * amount) / total) < total
  {
    var product := fee * amount;
    assert product == total * (product / total) + product % total;
  }

  /** Rounding every part down loses less than one unit per part. */
  lemma {:induction false} FloorsNearly(fee: nat, amounts: seq<nat>, total: nat)
    requires total > 0
    ensures total * Tally(Floors(fee, amounts, total), Self()) <= fee * Tally(amounts, Self())
    ensures fee * Tally(amounts, Self()) <= total * Tally(Floors(fee, amounts, total), Self()) + total * |amounts|
    ensures amounts != [] ==>
              fee * Tally(amounts, Self()) < total * Tally(Floors(fee, amounts, total), Self()) + total * |amounts|
  {
    if amounts != [] {
      var n := |amounts| - 1;
      var floors := Floors(fee, amounts, total);
      assert floors[..n] == Floors(fee, amounts[..n], total);
      FloorsNearly(fee, amounts[..n], total);
      FloorBounds(fee, amounts[n], total);
      NearlyStep(fee, total, Tally(amounts[..n], Self()), Tally(floors[..n], Self()), amounts[n], floors[n], n);
    }
  }

  lemma NearlyStep(fee: nat, total: nat, a: nat, f: nat, last: nat, q: nat, n: nat)
    requires total * f <= fee * a <= total * f + total * n
    requires 0 <= fee * last - total * q < total
    ensures total * (f + q) <= fee * (a + last) < total * (f + q) + total * (n + 1)
  {
    assert fee * (a + last) == fee * a + fee * last;
    assert total * (f + q) == total * f + total * q;
    assert total * (n + 1) == total * n + total;
  }

  lemma FitsBetween(total: nat, f: nat, fee: nat, n: nat)
    requires total * f <= fee * total < total * f + total * n
    ensures f <= fee < f + n
  {
    if fee < f {
      ProductGrows(total, fee + 1, f);
    } else if fee >= f + n {
      ProductGrows(total, f + n, fee);
    }
  }

  lemma ProductGrows(t: nat, a: nat, b: nat)
    requires a <= b
    ensures t * a <= t * b
  {
    assert t * (b - a) == t * b - t * a;
  }

  /** What is left after rounding down is non-negative and smaller than the number of parts, so the
      wrapping hand-out of single units never starts a second round. */
  lemma RemainderInRange(fee: nat, amounts: seq<nat>)
    requires Tally(amounts, Self()) > 0
    ensures 0 <= Remainder(fee, amounts, Tally(amounts, Self())) < |amounts|
  {
    var total := Tally(amounts, Self());
    FloorsNearly(fee, amounts, total);
    FitsBetween(total, Tally(Floors(fee, amounts, total), Self()), fee, |amounts|);
  }

  lemma {:induction false} TallyOfBump(xs: seq<nat>, extra: nat)
    requires extra <= |xs|
    ensures Tally(Bump(xs, extra), Self()) == Tally(xs, Self()) + extra
  {
    if xs != [] {
      var n := |xs| - 1;
      assert Bump(xs, extra)[..n] == Bump(xs[..n], if extra <= n then extra else n);
      TallyOfBump(xs[..n], if extra <= n then extra else n);
    }
  }

  /** The shares add up to the fee exactly, and each is its proportional part rounded down or one more. */
  lemma SharesExact(fee: nat, amounts: seq<nat>)
    requires Tally(amounts, Self()) > 0
    ensures Shares(fee, amounts).Ok?
    ensures var shares := Shares(fee, amounts).value;
            && |shares| == |amounts|
            && Tally(shares, Self()) == fee
            && forall i :: 0 <= i < |amounts| ==>
                 0 <= shares[i] - (fee * amounts[i]) / Tally(amounts, Self()) <= 1
  {
    RemainderInRange(fee, amounts);
    var total := Tally(amounts, Self());
    TallyOfBump(Floors(fee, amounts, total), Remainder(fee, amounts, total));
  }

  /** The proportional part of the fee for an amount, rounded down. */
  function PartOf(fee: nat, total: nat): nat -> nat
    requires total > 0
  {
    (amount: nat) => fee * amount / total
  }

  /** Each share on its own: the proportional part rounded down, and one more for as many of the first amounts as
      rounding all parts down left over. */
  lemma ShareIs(fee: nat, amounts: seq<nat>, i: nat)
    requires Tally(amounts, Self()) > 0 && i < |amounts|
    ensures Shares(fee, amounts).Ok? && |Shares(fee, amounts).value| == |amounts|
    ensures var total := Tally(amounts, Self());
            Shares(fee, amounts).value[i]
            == fee * amounts[i] / total + if i < fee - Tally(amounts, PartOf(fee, total)) then 1 else 0
  {
    var total := Tally(amounts, Self());
    RemainderInRange(fee, amounts);
    TallyEqual(Floors(fee, amounts, total), Self(), amounts, PartOf(fee, total));
  }

  predicate IsUnsigned(s: string) {
    s != [] && AllDigits(s)
  }

  predicate AllUnsigned(texts: seq<string>) {
    forall i :: 0 <= i < |texts| ==> IsUnsigned(texts[i])
  }

  function Values(texts: seq<string>): (values: seq<nat>)
    requires AllUnsigned(texts)
    ensures |values| == |texts| && forall i :: 0 <= i < |texts| ==> values[i] == Value(texts[i])
  {
    seq(|texts|, i requires 0 <= i < |texts| => Value(texts[i]))
  }

  function Prints(values: seq<nat>): (texts: seq<string>)
    ensures |texts| == |values| && forall i :: 0 <= i < |values| ==> texts[i] == Decimal(values[i])
  {
    seq(|values|, i requires 0 <= i < |values| => Decimal(values[i]))
  }

  method SumOf(xs: seq<nat>) returns (total: nat)
    ensures total == Tally(xs, Self())
  {
    total := 0;
    for i := 0 to |xs|
      invariant total == Tally(xs[..i], Self())
    {
      assert xs[..i + 1][..i] == xs[..i];
      total := total + xs[i];
    }
    assert xs[..|xs|] == xs;
  }

  /** How many of `units` handed out in turn to `n` places reach place `i`. */
  function Rounds(units: nat, n: nat, i: nat): nat
    requires n > 0
  {
    units / n + if i < units % n then 1 else 0
  }

  /** The place after place `m` in turn. */
  lemma NextPlace(n: nat, m: nat)
    requires m < n
    ensures (m + 1) % n == if m + 1 < n then m + 1 else 0
  {
    Quotient(m + 1, n, if m + 1 < n then 0 else 1, if m + 1 < n then m + 1 else 0);
  }

  lemma RoundsAre(x: nat, n: nat, q: nat, m: nat, i: nat)
    requires m < n && x == n * q + m
    ensures x % n == m && Rounds(x, n, i) == q + if i < m then 1 else 0
  {
    Quotient(x, n, q, m);
  }

  lemma NextUnit(given: nat, n: nat, i: nat)
    requires i < n
    ensures (given + 1) % n == (given % n + 1) % n
    ensures Rounds(given + 1, n, i) == Rounds(given, n, i) + if i == given % n then 1 else 0
  {
    var q, m := given / n, given % n;
    NextPlace(n, m);
    assert n * (q + 1) == n * q + n;
    RoundsAre(given + 1, n, if m + 1 < n then q else q + 1, if m + 1 < n then m + 1 else 0, i);
  }

  lemma Quotient(x: nat, n: nat, q: nat, m: nat)
    requires m < n && x == n * q + m
    ensures x / n == q && x % n == m
  {
    var p := x / n;
    assert x == n * p + x % n;
    assert n * (p + 1) == n * p + n && n * (q + 1) == n * q + n;
    if p < q {
      ProductGrows(n, p + 1, q);
    } else if p > q {
      ProductGrows(n, q + 1, p);
    }
  }

  /** Hands out the remainder one unit at a time, wrapping around the shares. */
  method HandOut(shares: array<nat>, units: int)
    requires shares.Length > 0
    modifies shares
    ensures forall i :: 0 <= i < shares.Length ==>
              shares[i] == old(shares[i]) + if units > 0 then Rounds(units, shares.Length, i) else 0
  {
    var n := shares.Length;
    var remainder, index := units, 0;
    ghost var given := 0;
    forall i | 0 <= i < n ensures Rounds(0, n, i) == 0 {
      Quotient(0, n, 0, 0);
    }
    while remainder > 0
      invariant units > 0 ==> given == units - remainder && remainder >= 0
      invariant units <= 0 ==> given == 0 && remainder == units
      invariant index == given % n
      invariant forall i :: 0 <= i < n ==> shares[i] == old(shares[i]) + Rounds(given, n, i)
    {
      forall i | 0 <= i < n
        ensures (given + 1) % n == (given % n + 1) % n
        ensures Rounds(given + 1, n, i) == Rounds(given, n, i) + if i == index then 1 else 0
      {
        NextUnit(given, n, i);
      }
      shares[index] := shares[index] + 1;
      remainder := remainder - 1;
      index := (index + 1) % n;
      given := given + 1;
    }
  }

  lemma FewUnits(xs: seq<nat>, ys: seq<nat>, units: nat)
    requires units < |xs| == |ys|
    requires forall i :: 0 <= i < |xs| ==> ys[i] == xs[i] + if units > 0 then Rounds(units, |xs|, i) else 0
    ensures ys == Bump(xs, units)
  {
    Quotient(units, |xs|, 0, units);
    forall i | 0 <= i < |xs| ensures ys[i] == Bump(xs, units)[i] {}
  }

  /** Apportions the fee in place: round every part down, then hand out what is left. */
  method Apportion(fee: nat, amounts: seq<nat>, total: nat) returns (r: seq<nat>)
    requires total == Tally(amounts, Self()) > 0
    ensures Shares(fee, amounts) == Ok(r)
  {
    var floors := Floors(fee, amounts, total);
    var shares := new nat[|amounts|](i requires 0 <= i < |floors| => floors[i]);
    assert shares[..] == floors;
    var handedOut := SumOf(shares[..]);
    RemainderInRange(fee, amounts);
    HandOut(shares, fee - handedOut);
    r := shares[..];
    FewUnits(floors, r, fee - handedOut);
  }

  method AllocateAtomicFee(totalFee: string, amountTexts: seq<string>) returns (r: Result<seq<string>, FeeError>)
    ensures r == Err(NotUnsigned) <==> !IsUnsigned(totalFee) || !AllUnsigned(amountTexts)
    ensures r.Ok? ==>
              && Shares(Value(totalFee), Values(amountTexts)).Ok?
              && r.value == Prints(Shares(Value(totalFee), Values(amountTexts)).value)
    ensures r == Err(NoPositiveTotal) ==> Shares(Value(totalFee), Values(amountTexts)) == Err(NoPositiveTotal)
  {
    if !IsUnsigned(totalFee) || !AllUnsigned(amountTexts) {
      return Err(NotUnsigned);
    }
    if |amountTexts| == 0 {
      return Ok([]);
    }
    var amounts := Values(amountTexts);
    var total := SumOf(amounts);
    if total <= 0 {
      return Err(NoPositiveTotal);
    }
    var shares := Apportion(Value(totalFee), amounts, total);
    r := Ok(Prints(shares));
  }

  /** What a receipt commits to besides its source; stands for the hashed tuple, hashing being injective. */
  datatype Receipt = Receipt(settlement: nat, amount: nat, fee: nat, feeKnown: bool, proof: nat, settledAt: int)

  datatype IssueError = SourceReused

  /** Issues the receipt of a source: the first one is stored, an identical one is a replay, and a different
      one is refused. */
  function Issue(stored: Option<Receipt>, receipt: Receipt): (r: Result<Receipt, IssueError>)
    ensures stored.Some? && r.Ok? ==> r.value == stored.value
    ensures r.Ok? ==> r.value == receipt
    ensures r.Ok? <==> stored == None || stored == Some(receipt)
  {
    if stored.Some? && stored.value != receipt then Err(SourceReused) else Ok(receipt)
  }
}
