/** What the Bitcoin payment service answers and leaves, on the stored records: the size of a transaction, when a request is
    created and what it stores, and the status steps (src/services/bitcoinPsbt.service.ts). */
module PsbtAnswers {
  import opened Wrappers
  import opened Tallies
  import opened Psbt
  import opened PsbtRecords
  import opened PsbtChains

  // Sizes.

  /** Every input and every output adds its own bytes to the eleven of an empty transaction: a taproot input 58, any other 68;
      an output eight for the amount, its script, and one or, from 253 bytes on, three for the script's length. */
  lemma SizesAdd(inputs: seq<Coin>, scripts: seq<string>, c: Coin, script: string)
    ensures EstimateVbytes([], []) == 11
    ensures EstimateVbytes(inputs + [c], scripts) == EstimateVbytes(inputs, scripts) + if c.inputType == P2tr then 58 else 68
    ensures var bytes := |script| / 2;
            EstimateVbytes(inputs, scripts + [script]) == EstimateVbytes(inputs, scripts) + bytes + if bytes <= 252 then 9 else 11
  {
    TallyAppend(inputs, c, InputVbytes());
    TallyAppend(scripts, script, OutputVbytes());
  }

  // Creating.

  predicate Distinct(outpoints: seq<Outpoint>) {
    forall i, j :: 0 <= i < j < |outpoints| ==> outpoints[i] != outpoints[j]
  }

  /** The request replaces a record of its own owner. */
  predicate OwnOriginal(records: seq<Record>, q: Request) {
    q.original.Some? && q.original.value < |records| && records[q.original.value].owner == q.owner
  }

  /** What is wrong with a request by itself: dust, change to the recipient, rates, limits, policies, and its outpoints when
      they count. */
  function Malformed(records: seq<Record>, q: Request): Option<PsbtError> {
    if q.amount < 546 then Some(RecipientDust)
    else if q.changeTo.script == q.recipient.script then Some(ChangeIsRecipient)
    else if q.rate < 1 || q.rate > 10_000 then Some(RateInvalid)
    else if q.maxFee == 0 then Some(FeeLimitInvalid)
    else if q.minConfirmations < 0 || q.minConfirmations > 100 || q.requiredConfirmations < 1 || q.requiredConfirmations > 100
    then Some(ConfirmationPolicyInvalid)
    else if OwnOriginal(records, q) || (q.original.Some? && q.outpoints == []) then None
    else if |q.outpoints| == 0 || |q.outpoints| > 50 then Some(InputsInvalid)
    else if !Distinct(q.outpoints) then Some(OutpointDuplicate)
    else None
  }

  /** The outpoints a request is about: those of its own original, or the ones it names. */
  function Outpoints(records: seq<Record>, q: Request): seq<Outpoint> {
    if OwnOriginal(records, q) then OutpointsOf(records[q.original.value].inputs) else q.outpoints
  }

  lemma MalformedAnswer(records: seq<Record>, q: Request)
    ensures Malformed(records, q).None? ==> CheckRequest(q) == Ok(()) && Wanted(records, q) == Ok(Outpoints(records, q))
    ensures Malformed(records, q).Some? ==>
              if CheckRequest(q).Err? then CheckRequest(q).error == Malformed(records, q).value
              else Wanted(records, q) == Err(Malformed(records, q).value)
  {
    assert Distinct(q.outpoints) <==> AllDifferent(q.outpoints);
  }

  /** A malformed request is refused for what is wrong with it, before anything is looked up. */
  lemma CreateRefusesMalformed(records: seq<Record>, q: Request, ready: bool, resolved: Result<seq<Coin>, PsbtError>)
    requires Malformed(records, q).Some?
    ensures Create(records, q, ready, resolved) == Err(Malformed(records, q).value)
  {
    MalformedAnswer(records, q);
  }

  /** A key that is stored replays exactly its own request. */
  lemma CreateOfStored(records: seq<Record>, q: Request, ready: bool, resolved: Result<seq<Coin>, PsbtError>, k: nat)
    requires Malformed(records, q).None? && UniqueKeys(records)
    requires k < |records| && records[k].owner == q.owner && records[k].key == q.key
    ensures Create(records, q, ready, resolved)
            == if records[k].request == q.(outpoints := Outpoints(records, q)) then Ok((records, k)) else Err(IdempotencyConflict)
  {
    MalformedAnswer(records, q);
    assert FindKey(records, q.owner, q.key) == Some(k);
  }

  /** A replacement keeps network, recipient, amount and change address of an original with change, and raises the rate. */
  predicate KeepsTerms(p: Record, q: Request) {
    && q.network == p.network && q.recipient == p.recipient && q.amount == p.amount
    && p.change.Some? && q.changeTo == p.change.value.address && p.rate < q.rate
  }

  /** The coins a new request spends, or why it has none: its original's, out on the network and with its terms kept, or what
      the node resolved. */
  function Funds(records: seq<Record>, q: Request, resolved: Result<seq<Coin>, PsbtError>): Result<seq<Coin>, PsbtError> {
    if q.original.None? then resolved
    else if !OwnOriginal(records, q) || records[q.original.value].status !in {Broadcast, Confirming} then Err(ReplacementNotAvailable)
    else
      var p := records[q.original.value];
      if !KeepsTerms(p, q) then Err(ReplacementPolicyMismatch)
      else if q.outpoints == [] then Ok(p.inputs)
      else if |q.outpoints| > 50 then Err(InputsInvalid)
      else if !Distinct(q.outpoints) then Err(OutpointDuplicate)
      else if q.outpoints != OutpointsOf(p.inputs) then Err(ReplacementInputMismatch)
      else Ok(p.inputs)
  }

  lemma FundsAnswer(records: seq<Record>, q: Request, resolved: Result<seq<Coin>, PsbtError>)
    ensures Resolve(records, q, resolved) == Funds(records, q, resolved)
  {
    assert Distinct(q.outpoints) <==> AllDifferent(q.outpoints);
  }

  /** Another active record, other than the original, spends one of the coins. */
  ghost predicate Taken(records: seq<Record>, q: Request, inputs: seq<Coin>) {
    exists j, i, n :: 0 <= j < |records| && 0 <= i < |inputs| && 0 <= n < |records[j].inputs|
                      && q.original != Some(j) && records[j].status in {AwaitingSignature, Broadcast, Confirming}
                      && records[j].inputs[n].outpoint == inputs[i].outpoint
  }

  lemma TakenIff(records: seq<Record>, q: Request, inputs: seq<Coin>)
    ensures Taken(records, q, inputs) <==> InUse(records, inputs, q.original)
  {
    if Taken(records, q, inputs) {
      var j, i, n :| 0 <= j < |records| && 0 <= i < |inputs| && 0 <= n < |records[j].inputs|
                     && q.original != Some(j) && records[j].status in {AwaitingSignature, Broadcast, Confirming}
                     && records[j].inputs[n].outpoint == inputs[i].outpoint;
      assert Spends(records[j], inputs[i].outpoint) && SharesInput(records[j], inputs);
    }
    if InUse(records, inputs, q.original) {
      var j :| 0 <= j < |records| && q.original != Some(j) && IsActive(records[j].status) && SharesInput(records[j], inputs);
      var i :| 0 <= i < |inputs| && Spends(records[j], inputs[i].outpoint);
      var n :| 0 <= n < |records[j].inputs| && records[j].inputs[n].outpoint == inputs[i].outpoint;
    }
  }

  ghost predicate NewRequest(records: seq<Record>, q: Request) {
    && Malformed(records, q).None?
    && forall k :: 0 <= k < |records| ==> records[k].owner != q.owner || records[k].key != q.key
  }

  /** A new request is created exactly when the node is ready, its coins are found and free, and they cover amount and fee
      within the limit; it is refused for the first of these that fails. */
  lemma CreateOfNew(records: seq<Record>, q: Request, ready: bool, resolved: Result<seq<Coin>, PsbtError>)
    requires Chained(records) && NewRequest(records, q)
    ensures var r, funds := Create(records, q, ready, resolved), Funds(records, q, resolved);
            if !ready then r == Err(CoreNotReady)
            else if funds.Err? then r == Err(funds.error)
            else if Taken(records, q, funds.value) then r == Err(InputAlreadyInUse)
            else
              var inputs := funds.value;
              var total := Tally(inputs, SatsOf());
              var fee := EstimateVbytes(inputs, [q.recipient.script, q.changeTo.script]) * q.rate;
              if total <= q.amount || total < q.amount + fee then r == Err(Unplannable(ValueInsufficient))
              else if q.maxFee < (if total - q.amount - fee < 546 then total - q.amount else fee)
              then r == Err(Unplannable(FeeLimitExceeded))
              else r.Ok?
  {
    MalformedAnswer(records, q);
    FundsAnswer(records, q, resolved);
    assert FindKey(records, q.owner, q.key).None?;
    var funds := Funds(records, q, resolved);
    if ready && funds.Ok? {
      TakenIff(records, q, funds.value);
      PlanExistsIff(funds.value, q.amount, q.recipient.script, q.changeTo.script, q.rate, q.maxFee);
      HigherFee(records, q, funds.value);
    }
  }

  /** A replacement that can be planned costs more than its original. */
  lemma HigherFee(records: seq<Record>, q: Request, inputs: seq<Coin>)
    requires Chained(records)
    requires q.original.Some? ==>
               OwnOriginal(records, q) && KeepsTerms(records[q.original.value], q) && inputs == records[q.original.value].inputs
    ensures var plan := MakePlan(inputs, q.amount, q.recipient.script, q.changeTo.script, q.rate, q.maxFee);
            q.original.Some? && plan.Ok? ==> plan.value.fee > records[q.original.value].fee
  {
    if q.original.Some? && MakePlan(inputs, q.amount, q.recipient.script, q.changeTo.script, q.rate, q.maxFee).Ok? {
      var p := records[q.original.value];
      assert RecordOk(records, q.original.value);
      PlanProperties(inputs, q.amount, q.recipient.script, q.changeTo.script, q.rate, q.maxFee);
      HigherRate(SizeWithChange(p), p.rate, q.rate);
    }
  }

  /** The record a new request stores: what was asked, the coins, the planned fee, change only if it is not dust, and nothing
      signed or confirmed yet. */
  lemma CreateStores(records: seq<Record>, q: Request, ready: bool, resolved: Result<seq<Coin>, PsbtError>)
    requires NewRequest(records, q) && Create(records, q, ready, resolved).Ok?
    ensures Funds(records, q, resolved).Ok?
    ensures var (later, k) := Create(records, q, ready, resolved).value;
            var inputs := Funds(records, q, resolved).value;
            var total := Tally(inputs, SatsOf());
            var fee := EstimateVbytes(inputs, [q.recipient.script, q.changeTo.script]) * q.rate;
            && k == |records| && |later| == k + 1 && later[..k] == records
            && later[k] == Record(q.owner, q.key, q.(outpoints := Outpoints(records, q)), q.network, q.recipient, q.amount,
                                  if total < q.amount + fee + 546 then total - q.amount else fee, q.maxFee, q.rate,
                                  if total < q.amount + fee + 546 then None else Some(Change(q.changeTo, total - q.amount - fee)),
                                  inputs, AwaitingSignature, 0, q.requiredConfirmations, q.original, None)
  {
    MalformedAnswer(records, q);
    FundsAnswer(records, q, resolved);
    assert FindKey(records, q.owner, q.key).None?;
    var inputs := Funds(records, q, resolved).value;
    PlanExistsIff(inputs, q.amount, q.recipient.script, q.changeTo.script, q.rate, q.maxFee);
  }

  /** A final transaction is accepted for a stored record exactly when it is version 2 without a lock time, spends the
      record's coins in order and replaceably, pays the recipient the amount first, and then its change, if any. */
  lemma FinalAcceptedIff(r: Record, tx: Transaction)
    requires PlanOk(r)
    ensures var planned := [Output(r.recipient.script, r.amount)]
                           + if r.change.Some? then [Output(r.change.value.address.script, r.change.value.sats)] else [];
            && (CheckFinal(r.inputs, planned, r.fee, tx).Ok? <==>
                  && tx.version == 2 && tx.locktime == 0 && |tx.ins| == |r.inputs|
                  && (forall i :: 0 <= i < |r.inputs| ==>
                        tx.ins[i].outpoint == r.inputs[i].outpoint && tx.ins[i].sequence == 4_294_967_293)
                  && tx.outs == planned)
  {
    var change := if r.change.Some? then r.change.value.address.script else "";
    FinalIffReviewed(r.inputs, r.amount, r.recipient.script, change, Plan(r.fee, ChangeSats(r)), tx);
  }

  // Status steps.

  /** Only row `i` changes. */
  predicate OnlyRow(records: seq<Record>, later: seq<Record>, i: nat) {
    |later| == |records| && forall j :: 0 <= j < |records| && j != i ==> later[j] == records[j]
  }

  /** The broadcast claim moves a record that awaits its signature, to broadcast or, rejected by the node, to failed. */
  lemma ClaimMoves(records: seq<Record>, i: nat, accepted: bool)
    ensures var later := ClaimBroadcast(records, i, accepted);
            && OnlyRow(records, later, i)
            && (i < |records| ==>
                  later[i] == if records[i].status == AwaitingSignature
                              then records[i].(status := if accepted then Broadcast else Failed) else records[i])
  {}

  /** A reconciliation moves a record that is out on the network: confirmed once it has its required confirmations, confirming
      from the first one on, and broadcast without any. */
  lemma ReconcileMoves(records: seq<Record>, i: nat, confirmations: nat)
    ensures var later := Reconcile(records, i, confirmations);
            && OnlyRow(records, later, i)
            && (i < |records| && records[i].status !in {Broadcast, Confirming} ==> later[i] == records[i])
            && (i < |records| && records[i].status in {Broadcast, Confirming} ==>
                  && later[i] == records[i].(status := later[i].status, confirmations := confirmations)
                  && (later[i].status == Confirmed <==> records[i].required <= confirmations)
                  && (later[i].status == Confirming <==> 0 < confirmations < records[i].required)
                  && (later[i].status == Broadcast <==> confirmations == 0 < records[i].required))
  {}

  /** Marking retires the original of a replacement, if it is the same owner's and still out on the network. */
  lemma MarkMoves(records: seq<Record>, i: nat)
    ensures var later := MarkOriginal(records, i);
            if i < |records| && records[i].original.Some? && records[i].original.value < |records|
               && records[records[i].original.value].owner == records[i].owner
               && records[records[i].original.value].status in {Broadcast, Confirming}
            then
              var p := records[i].original.value;
              OnlyRow(records, later, p) && later[p] == records[p].(status := Replaced, replacedBy := Some(i))
            else later == records
  {}

  /** Its owner abandons a record that awaits its signature, and no other. */
  lemma AbandonMoves(records: seq<Record>, i: nat, owner: nat)
    ensures var r := Abandon(records, i, owner);
            && (r.Ok? <==> i < |records| && records[i].owner == owner && records[i].status == AwaitingSignature)
            && (r.Err? ==> r.error == AbandonNotAllowed)
            && (r.Ok? ==> OnlyRow(records, r.value, i) && r.value[i] == records[i].(status := Abandoned))
  {}

  /** A step of a transaction keeps what commits and leaves everything as it was on a throw; the node answers for exactly the
      outpoints it was asked for. */
  lemma StepIs(records: seq<Record>, q: Request, ready: bool, resolved: Result<seq<Coin>, PsbtError>, i: nat, owner: nat,
               accepted: bool, confirmations: nat)
    requires q.original.None? && resolved.Ok? ==> OutpointsOf(resolved.value) == q.outpoints
    ensures Step(records, DoCreate(q, ready, resolved))
            == match Create(records, q, ready, resolved) case Ok(done) => done.0 case Err(_) => records
    ensures Step(records, DoAbandon(i, owner)) == match Abandon(records, i, owner) case Ok(later) => later case Err(_) => records
    ensures Step(records, DoClaim(i, accepted)) == ClaimBroadcast(records, i, accepted)
    ensures Step(records, DoMarkOriginal(i)) == MarkOriginal(records, i)
    ensures Step(records, DoReconcile(i, confirmations)) == Reconcile(records, i, confirmations)
  {}
}
