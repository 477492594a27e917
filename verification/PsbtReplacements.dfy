/** Which stored Bitcoin payment requests can be replaced (src/services/bitcoinPsbt.service.ts, createBitcoinPsbt with an
    original): a fee can be raised only out of the change, and only by whole satoshis per virtual byte. */
module PsbtReplacements {
  import opened Wrappers
  import opened Tallies
  import opened Psbt
  import opened PsbtRecords
  import opened PsbtChains
  import opened PsbtRaces

  /** Some request under this key that replaces record `i` is created. */
  ghost predicate CanBeReplaced(records: seq<Record>, i: nat, key: string) {
    exists q: Request, ready: bool, resolved: Result<seq<Coin>, PsbtError> ::
      && q.original == Some(i) && q.key == key && FindKey(records, q.owner, key).None?
      && Create(records, q, ready, resolved).Ok?
  }

  /** It is on the network below the highest rate, its change pays for one more satoshi per virtual byte, and no other
      active record spends its coins. */
  predicate Replaceable(records: seq<Record>, i: nat)
    requires i < |records|
  {
    var r := records[i];
    && IsBroadcast(r.status) && r.rate < MAX_FEE_RATE
    && r.change.Some? && r.change.value.sats >= SizeWithChange(r)
    && !InUse(records, r.inputs, Some(i))
  }

  /** What a created replacement shows about its original. */
  lemma CreatedReplacement(records: seq<Record>, i: nat, q: Request, ready: bool, resolved: Result<seq<Coin>, PsbtError>)
    requires Chained(records) && i < |records| && q.original == Some(i) && FindKey(records, q.owner, q.key).None?
    requires Create(records, q, ready, resolved).Ok?
    ensures Replaceable(records, i)
  {
    var r := records[i];
    assert RecordOk(records, i);
    assert Resolve(records, q, resolved) == Ok(r.inputs);
    PlanExistsIff(r.inputs, q.amount, q.recipient.script, q.changeTo.script, q.rate, q.maxFee);
    HigherRate(SizeWithChange(r), r.rate, q.rate);
  }

  /** The replacement that asks for one satoshi per virtual byte more and allows any fee. */
  function OneMore(records: seq<Record>, i: nat, key: string): Request
    requires i < |records| && records[i].change.Some?
  {
    var r := records[i];
    Request(r.owner, key, r.network, r.recipient, r.amount, [], r.change.value.address, r.rate + 1,
            Tally(r.inputs, SatsOf()), 0, 1, Some(i))
  }

  lemma OneMorePlan(r: Record)
    requires PlanOk(r) && r.change.Some? && r.change.value.sats >= SizeWithChange(r)
    ensures var plan := MakePlan(r.inputs, r.amount, r.recipient.script, r.change.value.address.script, r.rate + 1,
                                 Tally(r.inputs, SatsOf()));
            plan.Ok? && plan.value.fee > r.fee
  {
    OneMoreCosts(SizeWithChange(r), r.rate);
    PlanWithin(r.inputs, r.amount, r.recipient.script, r.change.value.address.script, r.rate + 1);
  }

  lemma OneMoreCosts(size: nat, rate: nat)
    ensures size * (rate + 1) == size * rate + size
  {}

  /** A plan that may cost anything exists when the inputs cover amount and fee. */
  lemma PlanWithin(inputs: seq<Coin>, amount: nat, recipient: string, change: string, rate: nat)
    requires Tally(inputs, SatsOf()) > amount
    requires Tally(inputs, SatsOf()) >= amount + EstimateVbytes(inputs, [recipient, change]) * rate
    ensures var plan := MakePlan(inputs, amount, recipient, change, rate, Tally(inputs, SatsOf()));
            plan.Ok? && plan.value.fee >= EstimateVbytes(inputs, [recipient, change]) * rate
  {
    PlanExistsIff(inputs, amount, recipient, change, rate, Tally(inputs, SatsOf()));
    PlanProperties(inputs, amount, recipient, change, rate, Tally(inputs, SatsOf()));
  }

  lemma OneMoreIsCreated(records: seq<Record>, i: nat, key: string)
    requires Chained(records) && i < |records| && FindKey(records, records[i].owner, key).None? && Replaceable(records, i)
    ensures Create(records, OneMore(records, i, key), true, Ok([])).Ok?
  {
    var r, q := records[i], OneMore(records, i, key);
    assert RecordOk(records, i);
    OneMorePlan(r);
    assert CheckRequest(q).Ok? && Wanted(records, q) == Ok(OutpointsOf(r.inputs));
    assert Resolve(records, q, Ok([])) == Ok(r.inputs);
  }

  lemma StoredReplaceableIff(records: seq<Record>, i: nat, key: string)
    requires Chained(records) && i < |records| && FindKey(records, records[i].owner, key).None?
    ensures CanBeReplaced(records, i, key) <==> Replaceable(records, i)
  {
    if Replaceable(records, i) {
      OneMoreIsCreated(records, i, key);
      assert OneMore(records, i, key).original == Some(i);
    }
    if CanBeReplaced(records, i, key) {
      var q: Request, ready: bool, resolved: Result<seq<Coin>, PsbtError> :|
        && q.original == Some(i) && q.key == key && FindKey(records, q.owner, key).None?
        && Create(records, q, ready, resolved).Ok?;
      CreatedReplacement(records, i, q, ready, resolved);
    }
  }

  /** Over every run, creations overlapping or not: a record can be replaced, under a key its owner has not used, if and
      only if it is on the network below the highest rate, its change is at least its size, and no other active record
      spends its coins. */
  lemma ReplaceableIff(ops: seq<RacyOp>, i: nat, key: string)
    requires i < |RacyRun(ops).records| && FindKey(RacyRun(ops).records, RacyRun(ops).records[i].owner, key).None?
    ensures CanBeReplaced(RacyRun(ops).records, i, key) <==> Replaceable(RacyRun(ops).records, i)
  {
    RacyRunChained(ops);
    StoredReplaceableIff(RacyRun(ops).records, i, key);
  }

  /** The guard against a fee that is not higher never fires: a higher rate on the same size already costs more. */
  lemma FeeTooLowUnreachable(records: seq<Record>, q: Request, ready: bool, resolved: Result<seq<Coin>, PsbtError>)
    requires Chained(records) && q.original.Some?
    ensures Create(records, q, ready, resolved) != Err(ReplacementFeeTooLow)
  {
    if Resolve(records, q, resolved).Ok? {
      var p := records[q.original.value];
      assert RecordOk(records, q.original.value);
      var plan := MakePlan(p.inputs, q.amount, q.recipient.script, q.changeTo.script, q.rate, q.maxFee);
      if plan.Ok? {
        PlanProperties(p.inputs, q.amount, q.recipient.script, q.changeTo.script, q.rate, q.maxFee);
        HigherRate(SizeWithChange(p), p.rate, q.rate);
      }
    }
  }

  /** Among exclusive records, the coins of an active record are in use exactly by its active original or by an active
      replacement of it. */
  lemma InUseIff(records: seq<Record>, i: nat)
    requires Inv(records) && i < |records| && IsActive(records[i].status)
    ensures InUse(records, records[i].inputs, Some(i))
            <==> || (records[i].original.Some? && records[i].original.value < i && IsActive(records[records[i].original.value].status))
                 || exists j :: 0 <= j < |records| && records[j].original == Some(i) && IsActive(records[j].status)
  {
    var r := records[i];
    assert RecordOk(records, i);
    assert Spends(r, r.inputs[0].outpoint);
    if InUse(records, r.inputs, Some(i)) {
      var j :| 0 <= j < |records| && Some(i) != Some(j) && IsActive(records[j].status) && SharesInput(records[j], r.inputs);
      SharingIsOverlap(records[j], r);
      assert if j < i then PairOk(records, j, i) else PairOk(records, i, j);
      OverlapSymmetric(records[j], r);
    }
    if r.original.Some? && IsActive(records[r.original.value].status) {
      assert SharesInput(records[r.original.value], r.inputs);
    }
    forall j | 0 <= j < |records| && records[j].original == Some(i) && IsActive(records[j].status)
      ensures InUse(records, r.inputs, Some(i))
    {
      assert RecordOk(records, j) && SharesInput(records[j], r.inputs);
    }
  }

  lemma OverlapSymmetric(r: Record, s: Record)
    requires Overlap(r, s)
    ensures Overlap(s, r)
  {
    var o :| Spends(r, o) && Spends(s, o);
  }

  // Records that can never be replaced.

  /** A first creation that is broadcast. */
  function Sent(q: Request, inputs: seq<Coin>): seq<RacyOp> {
    [Atomic(DoCreate(q, true, Ok(inputs)))] + [Atomic(DoClaim(0, true))]
  }

  lemma FirstCreated(q: Request, inputs: seq<Coin>, plan: Plan)
    requires CheckRequest(q).Ok? && q.original == None && q.outpoints == OutpointsOf(inputs) && Normalized(q.outpoints).Ok?
    requires MakePlan(inputs, q.amount, q.recipient.script, q.changeTo.script, q.rate, q.maxFee) == Ok(plan)
    ensures Create([], q, true, Ok(inputs)) == Ok(([NewRecord(q, q, inputs, plan)], 0))
  {
    var record := NewRecord(q, q, inputs, plan);
    assert q.(outpoints := q.outpoints) == q && [] + [record] == [record];
    assert !InUse([], inputs, None);
  }

  lemma FirstSent(q: Request, inputs: seq<Coin>, plan: Plan)
    requires CheckRequest(q).Ok? && q.original == None && q.outpoints == OutpointsOf(inputs) && Normalized(q.outpoints).Ok?
    requires MakePlan(inputs, q.amount, q.recipient.script, q.changeTo.script, q.rate, q.maxFee) == Ok(plan)
    ensures RacyRun(Sent(q, inputs)).records == [NewRecord(q, q, inputs, plan).(status := Broadcast)]
  {
    var created := Atomic(DoCreate(q, true, Ok(inputs)));
    FirstCreated(q, inputs, plan);
    RacySnoc([], created);
    assert [] + [created] == [created];
    RacySnoc([created], Atomic(DoClaim(0, true)));
    var record := NewRecord(q, q, inputs, plan);
    assert [record][0 := record.(status := Broadcast)] == [record.(status := Broadcast)];
  }

  /** Nine thousand five hundred of ten thousand satoshis: the rest is below the dust limit and becomes fee. */
  function NoChangeRequest(): Request {
    Request(0, "spent", Regtest, Address("recipient", "00"), 9_500, [Outpoint("00", 0)], Address("change", "11"), 1, 1_000, 0, 1, None)
  }

  /** A broadcast record without change, and no key under which it could be replaced. */
  lemma NoChangeIsFinal(key: string)
    requires key != "spent"
    ensures var t := RacyRun(Sent(NoChangeRequest(), [RacingCoin()])).records;
            && |t| == 1 && t[0].status == Broadcast && t[0].change == None && t[0].rate == 1
            && !CanBeReplaced(t, 0, key)
  {
    var q := NoChangeRequest();
    TallyOne(RacingCoin(), SatsOf());
    TallyOne(RacingCoin(), InputVbytes());
    TallyTwo("00", "11", OutputVbytes());
    TallyOne("00", OutputVbytes());
    assert MakePlan([RacingCoin()], 9_500, "00", "11", 1, 1_000) == Ok(Plan(500, 0));
    assert OutpointsOf([RacingCoin()]) == q.outpoints;
    FirstSent(q, [RacingCoin()], Plan(500, 0));
    NeverReplaced(Sent(q, [RacingCoin()]), key);
  }

  lemma NeverReplaced(ops: seq<RacyOp>, key: string)
    requires var t := RacyRun(ops).records; |t| == 1 && t[0].key != key && !Replaceable(t, 0)
    ensures !CanBeReplaced(RacyRun(ops).records, 0, key)
  {
    ReplaceableIff(ops, 0, key);
  }

  /** A script of twenty-two bytes. */
  function Script(digit: char): (script: string)
    ensures |script| == 44 && forall i :: 0 <= i < 44 ==> script[i] == digit
  {
    seq(44, _ => digit)
  }

  function SmallCoins(): (coins: seq<Coin>)
    ensures |coins| == 10 && forall i :: 0 <= i < 10 ==> coins[i] == Coin(Outpoint("00", i), 1_000, "", P2wpkh)
  {
    seq(10, i requires 0 <= i < 10 => Coin(Outpoint("00", i), 1_000, "", P2wpkh))
  }

  /** Ten coins of a thousand satoshis, 753 virtual bytes with change. */
  function SmallChangeRequest(): Request {
    Request(0, "spent", Regtest, Address("recipient", Script('0')), 8_647, OutpointsOf(SmallCoins()), Address("change", Script('1')),
            1, 1_000, 0, 1, None)
  }

  lemma SmallChangePlan()
    ensures EstimateVbytes(SmallCoins(), [Script('0'), Script('1')]) == 753
    ensures MakePlan(SmallCoins(), 8_647, Script('0'), Script('1'), 1, 1_000) == Ok(Plan(753, 600))
  {
    TallyConstant(SmallCoins(), SatsOf(), 1_000);
    TallyConstant(SmallCoins(), InputVbytes(), 68);
    TallyTwo(Script('0'), Script('1'), OutputVbytes());
  }

  /** A broadcast record whose change of six hundred satoshis cannot pay for 753 more, and no key under which it could be
      replaced. */
  lemma SmallChangeIsFinal(key: string)
    requires key != "spent"
    ensures var t := RacyRun(Sent(SmallChangeRequest(), SmallCoins())).records;
            && |t| == 1 && t[0].status == Broadcast && t[0].change.Some? && t[0].change.value.sats == 600 && t[0].rate == 1
            && !CanBeReplaced(t, 0, key)
  {
    var q := SmallChangeRequest();
    SmallChangePlan();
    assert q.changeTo.script[0] != q.recipient.script[0];
    FirstSent(q, SmallCoins(), Plan(753, 600));
    NeverReplaced(Sent(q, SmallCoins()), key);
  }
}
