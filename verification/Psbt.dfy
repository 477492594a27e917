/** The coin arithmetic of a reviewed Bitcoin transaction: size, fee and change of its plan, the fee-rate cap given to
    Bitcoin Core, and the check of the final transaction (src/services/bitcoinPsbt.service.ts). Amounts are whole
    satoshis; scripts are hexadecimal text. */
module Psbt {
  import opened Wrappers
  import opened Money
  import opened Tallies
  import opened BitcoinAmounts
  import Decimals

  const DUST_SATS: nat := 546
  const RBF_SEQUENCE: nat := 0xfffffffd
  const MAX_FEE_RATE: nat := 10_000

  datatype InputType = P2wpkh | P2tr

  datatype Outpoint = Outpoint(txid: string, vout: nat)

  datatype Coin = Coin(outpoint: Outpoint, sats: nat, script: string, inputType: InputType)

  datatype Output = Output(script: string, sats: nat)

  datatype Plan = Plan(fee: nat, change: nat)

  datatype PlanError = ValueInsufficient | FeeLimitExceeded

  // Sizes.

  function InputVbytes(): Coin -> nat {
    (c: Coin) => if c.inputType == P2tr then 58 else 68
  }

  function OutputVbytes(): string -> nat {
    (script: string) => var bytes := |script| / 2; 8 + (if bytes < 253 then 1 else 3) + bytes
  }

  function EstimateVbytes(inputs: seq<Coin>, scripts: seq<string>): (size: nat)
    ensures size >= 11
  {
    11 + Tally(inputs, InputVbytes()) + Tally(scripts, OutputVbytes())
  }

  function SatsOf(): Coin -> nat {
    (c: Coin) => c.sats
  }

  function OutputSats(): Output -> nat {
    (o: Output) => o.sats
  }

  // The plan.

  /** What paying the recipient leaves decides between a transaction with change and one that leaves the rest as fee. */
  function MakePlan(inputs: seq<Coin>, amount: nat, recipient: string, change: string, rate: nat, maxFee: nat): (r: Result<Plan, PlanError>) {
    var total := Tally(inputs, SatsOf());
    var withChange := EstimateVbytes(inputs, [recipient, change]) * rate;
    var _ :- Check(total > amount && total - amount >= withChange, ValueInsufficient);
    var left := total - amount - withChange;
    var plan := if left < DUST_SATS then Plan(total - amount, 0) else Plan(withChange, left);
    var _ :- Check(left < DUST_SATS ==> plan.fee >= EstimateVbytes(inputs, [recipient]) * rate, ValueInsufficient);
    var _ :- Check(plan.fee <= maxFee, FeeLimitExceeded);
    Ok(plan)
  }

  function ChangeOutputs(plan: Plan, change: string): seq<Output> {
    if plan.change > 0 then [Output(change, plan.change)] else []
  }

  /** The outputs of the transaction actually built. */
  function Outputs(amount: nat, recipient: string, plan: Plan, change: string): seq<Output> {
    [Output(recipient, amount)] + ChangeOutputs(plan, change)
  }

  function ScriptsOf(outputs: seq<Output>): (scripts: seq<string>)
    ensures |scripts| == |outputs| && forall i :: 0 <= i < |outputs| ==> scripts[i] == outputs[i].script
  {
    seq(|outputs|, i requires 0 <= i < |outputs| => outputs[i].script)
  }

  lemma TallyTwo<T>(x: T, y: T, w: T -> nat)
    ensures Tally([x, y], w) == w(x) + w(y)
  {
    TallyOne(x, w);
    TallyAppend([x], y, w);
    assert [x] + [y] == [x, y];
  }

  lemma Scaled(a: nat, b: nat, rate: nat)
    requires a <= b
    ensures a * rate <= b * rate
  {
    assert (b - a) * rate == b * rate - a * rate;
  }

  /** Leaving out the change output never makes the transaction larger. */
  lemma WithoutChangeIsSmaller(inputs: seq<Coin>, recipient: string, change: string, rate: nat)
    ensures EstimateVbytes(inputs, [recipient]) * rate <= EstimateVbytes(inputs, [recipient, change]) * rate
  {
    TallyOne(recipient, OutputVbytes());
    TallyTwo(recipient, change, OutputVbytes());
    Scaled(EstimateVbytes(inputs, [recipient]), EstimateVbytes(inputs, [recipient, change]), rate);
  }

  /** A plan conserves value, has no dust change, pays at least the rate for the transaction actually built and at most
      the reviewed maximum, and gives up less than the dust limit beyond the fee with change. */
  lemma PlanProperties(inputs: seq<Coin>, amount: nat, recipient: string, change: string, rate: nat, maxFee: nat)
    requires MakePlan(inputs, amount, recipient, change, rate, maxFee).Ok?
    ensures var plan := MakePlan(inputs, amount, recipient, change, rate, maxFee).value;
            var withChange := EstimateVbytes(inputs, [recipient, change]) * rate;
            && Tally(inputs, SatsOf()) == amount + plan.fee + plan.change
            && (plan.change == 0 || plan.change >= DUST_SATS)
            && withChange <= plan.fee < withChange + DUST_SATS && (plan.change > 0 ==> plan.fee == withChange)
            && EstimateVbytes(inputs, ScriptsOf(Outputs(amount, recipient, plan, change))) * rate <= plan.fee <= maxFee
  {
    var plan := MakePlan(inputs, amount, recipient, change, rate, maxFee).value;
    WithoutChangeIsSmaller(inputs, recipient, change, rate);
    if plan.change > 0 {
      assert ScriptsOf(Outputs(amount, recipient, plan, change)) == [recipient, change];
    } else {
      assert ScriptsOf(Outputs(amount, recipient, plan, change)) == [recipient];
    }
  }

  /** Exactly when a plan exists; the second check of the fee without change never fails. */
  lemma PlanExistsIff(inputs: seq<Coin>, amount: nat, recipient: string, change: string, rate: nat, maxFee: nat)
    ensures var total, withChange := Tally(inputs, SatsOf()), EstimateVbytes(inputs, [recipient, change]) * rate;
            var r := MakePlan(inputs, amount, recipient, change, rate, maxFee);
            && (r == Err(ValueInsufficient) <==> total <= amount || total < amount + withChange)
            && (r == Err(FeeLimitExceeded) <==>
                  && total > amount && total >= amount + withChange
                  && maxFee < if total - amount - withChange < DUST_SATS then total - amount else withChange)
  {
    WithoutChangeIsSmaller(inputs, recipient, change, rate);
  }

  /** The plan's arithmetic, fee and change reassigned as the branches are taken. */
  method PlanFee(inputs: seq<Coin>, amount: nat, recipient: string, change: string, rate: nat, maxFee: nat)
    returns (r: Result<Plan, PlanError>)
    ensures r == MakePlan(inputs, amount, recipient, change, rate, maxFee)
  {
    var inputTotal := 0;
    for i := 0 to |inputs|
      invariant inputTotal == Tally(inputs[..i], SatsOf())
    {
      assert inputs[..i + 1][..i] == inputs[..i];
      inputTotal := inputTotal + inputs[i].sats;
    }
    assert inputs[..|inputs|] == inputs;
    if inputTotal <= amount {
      return Err(ValueInsufficient);
    }
    var feeWithChange := EstimateVbytes(inputs, [recipient, change]) * rate;
    var feeSats := feeWithChange;
    var changeSats: int := inputTotal - amount - feeWithChange;
    if changeSats < 0 {
      return Err(ValueInsufficient);
    }
    if changeSats < DUST_SATS {
      var minimumNoChangeFee := EstimateVbytes(inputs, [recipient]) * rate;
      feeSats := inputTotal - amount;
      changeSats := 0;
      if feeSats < minimumNoChangeFee {
        return Err(ValueInsufficient);
      }
    }
    if feeSats > maxFee {
      return Err(FeeLimitExceeded);
    }
    return Ok(Plan(feeSats, changeSats));
  }

  // The fee-rate cap.

  /** The cap in satoshis per thousand virtual bytes: the reviewed rate rounded up, plus one. */
  function CapPerKvB(fee: nat, vsize: nat): nat
    requires vsize > 0
  {
    (fee * 1000 + vsize - 1) / vsize + 1
  }

  function CoreMaxFeeRate(fee: nat, vsize: nat): (r: Result<string, AmountError>)
    requires vsize > 0
  {
    var msat :- SatsToMsat(CapPerKvB(fee, vsize));
    FormatMsat(msat)
  }

  /** The cap admits the reviewed fee and leaves less than two satoshis per thousand virtual bytes of slack. */
  lemma CapAdmitsFee(fee: nat, vsize: nat)
    requires vsize > 0
    ensures fee * 1000 + vsize <= CapPerKvB(fee, vsize) * vsize < fee * 1000 + 2 * vsize
  {
    var n := fee * 1000 + vsize - 1;
    var q := n / vsize;
    assert n == vsize * q + n % vsize;
    assert (q + 1) * vsize == vsize * q + vsize;
  }

  /** Core reads the cap it is given as exactly that rate, as long as the rate is within the money supply. */
  lemma CapReadsBack(fee: nat, vsize: nat)
    requires vsize > 0 && CapPerKvB(fee, vsize) * MSAT_PER_SAT <= MAX_BITCOIN_MSAT
    ensures CoreMaxFeeRate(fee, vsize).Ok?
    ensures var read := ParseBtc(CoreMaxFeeRate(fee, vsize).value, true);
            read.Ok? && MsatToSats(read.value) == Ok(CapPerKvB(fee, vsize))
  {
    var cap := CapPerKvB(fee, vsize);
    SatsRoundTrip(cap);
    ParsePrinted(cap * MSAT_PER_SAT);
    AlignedProduct(cap);
    BtcRoundTrip(SatsToMsat(cap).value, true);
  }

  lemma AlignedProduct(cap: nat)
    ensures (cap * MSAT_PER_SAT) % MSAT_PER_SAT == 0
  {}

  lemma ParsePrinted(n: nat)
    requires n <= MAX_ATOMIC
    ensures ParseAtomic(Decimals.Decimal(n)) == Ok(n)
  {
    ParseExactlyPrints(Decimals.Decimal(n), n);
  }

  // The final transaction.

  datatype TxInput = TxInput(outpoint: Outpoint, sequence: nat)

  datatype Transaction = Transaction(version: int, locktime: nat, ins: seq<TxInput>, outs: seq<Output>)

  datatype FinalError = Mutated | FeeMismatch

  predicate SpendsReviewed(ins: seq<TxInput>, inputs: seq<Coin>) {
    |ins| == |inputs| && forall i :: 0 <= i < |ins| ==> ins[i] == TxInput(inputs[i].outpoint, RBF_SEQUENCE)
  }

  /** The comparison of a final transaction with the reviewed inputs, outputs and fee. */
  function CheckFinal(inputs: seq<Coin>, planned: seq<Output>, fee: nat, tx: Transaction): (r: Result<(), FinalError>) {
    var _ :- Check(tx.version == 2 && tx.locktime == 0, Mutated);
    var _ :- Check(SpendsReviewed(tx.ins, inputs), Mutated);
    var _ :- Check(tx.outs == planned, Mutated);
    var _ :- Check(Tally(inputs, SatsOf()) - Tally(tx.outs, OutputSats()) == fee, FeeMismatch);
    Ok(())
  }

  /** For the outputs of a plan the fee check never fails: a final transaction is accepted exactly when its version,
      locktime, inputs and outputs are the reviewed ones. */
  lemma FinalIffReviewed(inputs: seq<Coin>, amount: nat, recipient: string, change: string, plan: Plan, tx: Transaction)
    requires Tally(inputs, SatsOf()) == amount + plan.fee + plan.change
    ensures var outputs := Outputs(amount, recipient, plan, change);
            && CheckFinal(inputs, outputs, plan.fee, tx) != Err(FeeMismatch)
            && (CheckFinal(inputs, outputs, plan.fee, tx).Ok? <==>
                  tx.version == 2 && tx.locktime == 0 && SpendsReviewed(tx.ins, inputs) && tx.outs == outputs)
  {
    var outputs := Outputs(amount, recipient, plan, change);
    TallyOne(Output(recipient, amount), OutputSats());
    if plan.change > 0 {
      TallyTwo(Output(recipient, amount), Output(change, plan.change), OutputSats());
      assert outputs == [Output(recipient, amount), Output(change, plan.change)];
    } else {
      assert outputs == [Output(recipient, amount)];
    }
  }
}
