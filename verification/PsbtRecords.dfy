/** Stored Bitcoin payment requests: creation with conflict and replacement policy, and the status steps of submission,
    reconciliation and abandonment (src/services/bitcoinPsbt.service.ts). Records are identified by their position. */
module PsbtRecords {
  import opened Wrappers
  import opened Tallies
  import opened Psbt

  const MAX_INPUTS: nat := 50

  datatype Network = Mainnet | Testnet | Signet | Regtest

  /** An address and the script it stands for. */
  datatype Address = Address(text: string, script: string)

  datatype Request = Request(
    owner: nat,
    key: string,
    network: Network,
    recipient: Address,
    amount: nat,
    outpoints: seq<Outpoint>,
    changeTo: Address,
    rate: nat,
    maxFee: nat,
    minConfirmations: int,
    requiredConfirmations: int,
    original: Option<nat>)

  datatype Status = AwaitingSignature | Broadcast | Confirming | Confirmed | Replaced | Abandoned | Failed

  datatype Change = Change(address: Address, sats: nat)

  /** `request` is what the request fingerprint commits to. */
  datatype Record = Record(
    owner: nat,
    key: string,
    request: Request,
    network: Network,
    recipient: Address,
    amount: nat,
    fee: nat,
    maxFee: nat,
    rate: nat,
    change: Option<Change>,
    inputs: seq<Coin>,
    status: Status,
    confirmations: nat,
    required: nat,
    original: Option<nat>,
    replacedBy: Option<nat>)

  datatype PsbtError =
    | RecipientDust | ChangeIsRecipient | RateInvalid | FeeLimitInvalid | ConfirmationPolicyInvalid
    | InputsInvalid | OutpointDuplicate | IdempotencyConflict | CoreNotReady
    | ReplacementNotAvailable | ReplacementPolicyMismatch | ReplacementInputMismatch | ReplacementFeeTooLow
    | InputUnavailable | InputAlreadyInUse | Unplannable(cause: PlanError)
    | NotFound | AbandonNotAllowed

  predicate IsActive(s: Status) {
    s == AwaitingSignature || s == Broadcast || s == Confirming
  }

  predicate IsBroadcast(s: Status) {
    s == Broadcast || s == Confirming
  }

  function OutpointsOf(inputs: seq<Coin>): (outpoints: seq<Outpoint>)
    ensures |outpoints| == |inputs| && forall i :: 0 <= i < |inputs| ==> outpoints[i] == inputs[i].outpoint
  {
    seq(|inputs|, i requires 0 <= i < |inputs| => inputs[i].outpoint)
  }

  predicate AllDifferent(outpoints: seq<Outpoint>) {
    forall i, j :: 0 <= i < j < |outpoints| ==> outpoints[i] != outpoints[j]
  }

  function Normalized(outpoints: seq<Outpoint>): (r: Result<seq<Outpoint>, PsbtError>) {
    var _ :- Check(1 <= |outpoints| <= MAX_INPUTS, InputsInvalid);
    var _ :- Check(AllDifferent(outpoints), OutpointDuplicate);
    Ok(outpoints)
  }

  function CheckRequest(q: Request): (r: Result<(), PsbtError>) {
    var _ :- Check(q.amount >= DUST_SATS, RecipientDust);
    var _ :- Check(q.changeTo.script != q.recipient.script, ChangeIsRecipient);
    var _ :- Check(1 <= q.rate <= MAX_FEE_RATE, RateInvalid);
    var _ :- Check(q.maxFee > 0, FeeLimitInvalid);
    var _ :- Check(0 <= q.minConfirmations <= 100 && 1 <= q.requiredConfirmations <= 100, ConfirmationPolicyInvalid);
    Ok(())
  }

  predicate IsOwned(records: seq<Record>, i: nat, owner: nat) {
    i < |records| && records[i].owner == owner
  }

  /** The outpoints a request is about: those of the record it replaces, when its owner has it. */
  function Wanted(records: seq<Record>, q: Request): (r: Result<seq<Outpoint>, PsbtError>) {
    if q.original.Some? && IsOwned(records, q.original.value, q.owner) then Ok(OutpointsOf(records[q.original.value].inputs))
    else if q.original.Some? && q.outpoints == [] then Ok([])
    else Normalized(q.outpoints)
  }

  function FindKey(records: seq<Record>, owner: nat, key: string): (k: Option<nat>)
    ensures k.Some? ==> k.value < |records| && records[k.value].owner == owner && records[k.value].key == key
    ensures k.None? ==> forall j :: 0 <= j < |records| ==> !(records[j].owner == owner && records[j].key == key)
  {
    if records == [] then None
    else
      var last := records[|records| - 1];
      if last.owner == owner && last.key == key then Some(|records| - 1)
      else FindKey(records[..|records| - 1], owner, key)
  }

  /** What a replacement must keep of the original and what it must raise. */
  predicate MayReplace(p: Record, q: Request) {
    && p.network == q.network && p.recipient == q.recipient && p.amount == q.amount
    && p.change.Some? && p.change.value.address == q.changeTo && q.rate > p.rate
  }

  /** The coins to spend: the original's for a replacement, else what the node resolved. */
  function Resolve(records: seq<Record>, q: Request, resolved: Result<seq<Coin>, PsbtError>): (r: Result<seq<Coin>, PsbtError>) {
    match q.original
    case None => resolved
    case Some(p) =>
      var _ :- Check(IsOwned(records, p, q.owner) && IsBroadcast(records[p].status), ReplacementNotAvailable);
      var _ :- Check(MayReplace(records[p], q), ReplacementPolicyMismatch);
      if q.outpoints == [] then Ok(records[p].inputs)
      else
        var requested :- Normalized(q.outpoints);
        var _ :- Check(requested == OutpointsOf(records[p].inputs), ReplacementInputMismatch);
        Ok(records[p].inputs)
  }

  predicate Spends(r: Record, o: Outpoint) {
    exists i :: 0 <= i < |r.inputs| && r.inputs[i].outpoint == o
  }

  predicate SharesInput(r: Record, inputs: seq<Coin>) {
    exists i :: 0 <= i < |inputs| && Spends(r, inputs[i].outpoint)
  }

  /** Another active record, not the one being replaced, already spends one of the coins. */
  predicate InUse(records: seq<Record>, inputs: seq<Coin>, original: Option<nat>) {
    exists j :: 0 <= j < |records| && original != Some(j) && IsActive(records[j].status) && SharesInput(records[j], inputs)
  }

  function Planned(f: Result<Plan, PlanError>): (r: Result<Plan, PsbtError>) {
    if f.Ok? then Ok(f.value) else Err(Unplannable(f.error))
  }

  /** Creates a payment request, as one step: a replay returns the stored one. `resolved` is what the node answers for
      the outpoints of a request that replaces nothing. */
  function Create(records: seq<Record>, q: Request, ready: bool, resolved: Result<seq<Coin>, PsbtError>)
    : (r: Result<(seq<Record>, nat), PsbtError>)
  {
    var _ :- CheckRequest(q);
    var outpoints :- Wanted(records, q);
    var committed := q.(outpoints := outpoints);
    match FindKey(records, q.owner, q.key)
    case Some(k) => if records[k].request == committed then Ok((records, k)) else Err(IdempotencyConflict)
    case None =>
      var _ :- Check(ready, CoreNotReady);
      var inputs :- Resolve(records, q, resolved);
      var _ :- Check(!InUse(records, inputs, q.original), InputAlreadyInUse);
      var plan :- Planned(MakePlan(inputs, q.amount, q.recipient.script, q.changeTo.script, q.rate, q.maxFee));
      var _ :- Check(q.original.Some? ==> IsOwned(records, q.original.value, q.owner) && plan.fee > records[q.original.value].fee,
               ReplacementFeeTooLow);
      Ok((records + [NewRecord(q, committed, inputs, plan)], |records|))
  }

  function NewRecord(q: Request, committed: Request, inputs: seq<Coin>, plan: Plan): Record {
    Record(q.owner, q.key, committed, q.network, q.recipient, q.amount, plan.fee, q.maxFee, q.rate,
           if plan.change > 0 then Some(Change(q.changeTo, plan.change)) else None,
           inputs, AwaitingSignature, 0, if q.requiredConfirmations >= 0 then q.requiredConfirmations else 0,
           q.original, None)
  }

  // Status steps, each one conditional update.

  function SetStatus(records: seq<Record>, i: nat, status: Status): seq<Record>
    requires i < |records|
  {
    records[i := records[i].(status := status)]
  }

  /** The final transaction was accepted by the node and claimed for broadcast, or rejected. */
  function ClaimBroadcast(records: seq<Record>, i: nat, accepted: bool): seq<Record> {
    if i < |records| && records[i].status == AwaitingSignature
    then SetStatus(records, i, if accepted then Broadcast else Failed) else records
  }

  /** After the replacement `i` was seen by the network, its original counts as replaced. */
  function MarkOriginal(records: seq<Record>, i: nat): seq<Record> {
    if i < |records| && records[i].original.Some? && IsOwned(records, records[i].original.value, records[i].owner)
       && IsBroadcast(records[records[i].original.value].status)
    then
      var p := records[i].original.value;
      records[p := records[p].(status := Replaced, replacedBy := Some(i))]
    else records
  }

  function Reconcile(records: seq<Record>, i: nat, confirmations: nat): seq<Record> {
    if i < |records| && IsBroadcast(records[i].status)
    then records[i := records[i].(
                        status := if confirmations >= records[i].required then Confirmed
                                  else if confirmations > 0 then Confirming else Broadcast,
                        confirmations := confirmations)]
    else records
  }

  function Abandon(records: seq<Record>, i: nat, owner: nat): (r: Result<seq<Record>, PsbtError>) {
    var _ :- Check(IsOwned(records, i, owner) && records[i].status == AwaitingSignature, AbandonNotAllowed);
    Ok(SetStatus(records, i, Abandoned))
  }

  datatype Op =
    | DoCreate(request: Request, ready: bool, resolved: Result<seq<Coin>, PsbtError>)
    | DoClaim(i: nat, accepted: bool)
    | DoMarkOriginal(i: nat)
    | DoReconcile(i: nat, confirmations: nat)
    | DoAbandon(i: nat, owner: nat)

  /** What the node may answer when asked for outpoints: exactly those coins, or an error. */
  predicate Answers(op: Op) {
    op.DoCreate? && op.request.original.None? && op.resolved.Ok? ==> OutpointsOf(op.resolved.value) == op.request.outpoints
  }

  function Step(records: seq<Record>, op: Op): seq<Record> {
    match op
    case DoCreate(q, ready, resolved) =>
      if Answers(op) && Create(records, q, ready, resolved).Ok? then Create(records, q, ready, resolved).value.0 else records
    case DoClaim(i, accepted) => ClaimBroadcast(records, i, accepted)
    case DoMarkOriginal(i) => MarkOriginal(records, i)
    case DoReconcile(i, confirmations) => Reconcile(records, i, confirmations)
    case DoAbandon(i, owner) => if Abandon(records, i, owner).Ok? then Abandon(records, i, owner).value else records
  }

  function Run(records: seq<Record>, ops: seq<Op>): seq<Record> {
    if ops == [] then records else Step(Run(records, ops[..|ops| - 1]), ops[|ops| - 1])
  }
}
