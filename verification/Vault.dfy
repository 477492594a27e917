/** The pure transition checker of the constrained vault, version 2 (src/domain/vaultV2.ts). */
module Vault {
  import opened Wrappers
  import opened Money

  datatype Asset = NativeCkb | Udt(typeHash: string)

  datatype Policy = Policy(
    policyHash: string,
    passIdHash: string,
    ownerLockHash: string,
    operatorLockHash: string,
    recipientLockHash: string,
    asset: Asset,
    totalCap: string,
    perPaymentCap: string,
    cadence: int,
    occurrenceLimit: int,
    expiry: Option<int>,
    feeCeiling: string)

  datatype Status = Active | Revoked

  datatype State = State(
    policyHash: string,
    remaining: string,
    occurrences: int,
    nextValidAfter: int,
    nonce: int,
    status: Status)

  datatype Action = OperatorPayout | OwnerTopUp | OwnerRevoke | OwnerReclaim | OwnerMigrate

  datatype Transition = Transition(
    action: Action,
    authLockHashes: seq<string>,
    inputPassIdHashes: seq<string>,
    observedAssetTypeHash: Option<string>,
    input: string,
    output: string,
    recipientLockHash: Option<string>,
    recipient: string,
    ownerNet: string,
    topUp: string,
    fee: string,
    stateCapacityDelta: string,
    verifiedTime: Option<int>,
    outputState: Option<State>,
    migrationTarget: Option<string>)

  datatype Code =
    | InvalidHash | InvalidAmount | InvalidInteger | InvalidCap | InvalidOccurrenceLimit
    | PolicyHashMismatch | TotalCapExceeded | AuthRequired | OutputStateRequired | PolicyMutation | NonceInvalid
    | UnexpectedTypeScript | AssetTypeMismatch | UdtStateCapacityChanged
    | PassCellMixing | InputStateAssetMismatch | FeeCeilingExceeded
    | TimeEvidenceRequired | CadenceNotReached | VaultExpired
    | VaultRevoked | PaymentCapExceeded | InsufficientRemaining | RecipientMismatch
    | OwnerOutputForbidden | TopUpForbidden | OccurrenceLimitReached | AssetConservationFailed
    | StateRemainingMismatch | OccurrenceCountInvalid | StatusInvalid | NextCadenceInvalid
    | TopUpRequired | RecipientOutputForbidden | ExternalFeeRequired | TopUpStateInvalid | RevokeStateInvalid
    | StateOutputForbidden | VaultChangeForbidden | OwnerConservationFailed
    | MigrationTargetRequired | MigrationTargetMismatch | OwnerRecipientMismatch
    | NoStateCell

  datatype Amounts = Amounts(input: nat, output: nat, recipient: nat, ownerNet: nat, topUp: nat, fee: nat)

  predicate IsHash(s: string) {
    && |s| == 66 && s[..2] == "0x"
    && forall i :: 2 <= i < 66 ==> '0' <= s[i] <= '9' || 'a' <= s[i] <= 'f'
  }

  predicate IsSafe(n: int) {
    0 <= n <= MAX_SAFE
  }

  function Amount(s: string): (r: Result<nat, Code>) {
    if ParseAtomic(s).Ok? then Ok(ParseAtomic(s).value) else Err(InvalidAmount)
  }

  function ValidatePolicy(p: Policy): (r: Result<(), Code>) {
    var _ :- Check(IsHash(p.policyHash) && IsHash(p.passIdHash) && IsHash(p.ownerLockHash), InvalidHash);
    var _ :- Check(IsHash(p.operatorLockHash) && IsHash(p.recipientLockHash), InvalidHash);
    var _ :- Check(p.asset.Udt? ==> IsHash(p.asset.typeHash), InvalidHash);
    var total :- Amount(p.totalCap);
    var perPayment :- Amount(p.perPaymentCap);
    var _ :- Check(0 < perPayment <= total, InvalidCap);
    var _ :- Check(IsSafe(p.cadence) && IsSafe(p.occurrenceLimit), InvalidInteger);
    var _ :- Check(p.occurrenceLimit >= 1, InvalidOccurrenceLimit);
    var _ :- Check(p.expiry.Some? ==> IsSafe(p.expiry.value), InvalidInteger);
    var _ :- Amount(p.feeCeiling);
    Ok(())
  }

  function ValidateState(p: Policy, s: State): (r: Result<(), Code>) {
    var _ :- Check(s.policyHash == p.policyHash, PolicyHashMismatch);
    var remaining :- Amount(s.remaining);
    var cap :- Amount(p.totalCap);
    var _ :- Check(remaining <= cap, TotalCapExceeded);
    var _ :- Check(IsSafe(s.occurrences) && IsSafe(s.nextValidAfter) && IsSafe(s.nonce), InvalidInteger);
    Ok(())
  }

  function RequireOutputState(p: Policy, before: State, t: Transition): (r: Result<State, Code>) {
    var _ :- Check(t.outputState.Some?, OutputStateRequired);
    var output := t.outputState.value;
    var _ :- ValidateState(p, output);
    var _ :- Check(output.policyHash == before.policyHash, PolicyMutation);
    var _ :- Check(output.nonce == before.nonce + 1, NonceInvalid);
    Ok(output)
  }

  function ValidateAsset(p: Policy, t: Transition): (r: Result<(), Code>) {
    match p.asset
    case NativeCkb =>
      var _ :- Check(t.observedAssetTypeHash == None, UnexpectedTypeScript);
      Ok(())
    case Udt(typeHash) =>
      var _ :- Check(t.observedAssetTypeHash == Some(typeHash), AssetTypeMismatch);
      var delta :- Amount(t.stateCapacityDelta);
      var _ :- Check(delta == 0, UdtStateCapacityChanged);
      Ok(())
  }

  function ValidateCommon(p: Policy, before: State, t: Transition): (r: Result<Amounts, Code>) {
    var _ :- ValidatePolicy(p);
    var _ :- ValidateState(p, before);
    var _ :- Check(t.inputPassIdHashes != [] && forall i :: 0 <= i < |t.inputPassIdHashes| ==> t.inputPassIdHashes[i] == p.passIdHash,
             PassCellMixing);
    var _ :- ValidateAsset(p, t);
    var input :- Amount(t.input);
    var output :- Amount(t.output);
    var recipient :- Amount(t.recipient);
    var ownerNet :- Amount(t.ownerNet);
    var topUp :- Amount(t.topUp);
    var fee :- Amount(t.fee);
    var remaining :- Amount(before.remaining);
    var _ :- Check(input == remaining, InputStateAssetMismatch);
    var ceiling :- Amount(p.feeCeiling);
    var _ :- Check(fee <= ceiling, FeeCeilingExceeded);
    Ok(Amounts(input, output, recipient, ownerNet, topUp, fee))
  }

  function RequireVerifiedTime(p: Policy, before: State, t: Transition): (r: Result<int, Code>) {
    var _ :- Check(t.verifiedTime.Some?, TimeEvidenceRequired);
    var now := t.verifiedTime.value;
    var _ :- Check(IsSafe(now), InvalidInteger);
    var _ :- Check(before.nextValidAfter <= now, CadenceNotReached);
    var _ :- Check(p.expiry.Some? ==> now < p.expiry.value, VaultExpired);
    Ok(now)
  }

  function FeeFromVault(p: Policy, fee: nat): nat {
    if p.asset.NativeCkb? then fee else 0
  }

  function ValidateOperatorPayout(p: Policy, before: State, t: Transition, v: Amounts): (r: Result<State, Code>) {
    var _ :- Check(p.operatorLockHash in t.authLockHashes, AuthRequired);
    var _ :- Check(before.status == Active, VaultRevoked);
    var now :- RequireVerifiedTime(p, before, t);
    var cap :- Amount(p.perPaymentCap);
    var _ :- Check(0 < v.recipient <= cap, PaymentCapExceeded);
    var _ :- Check(v.recipient <= v.input, InsufficientRemaining);
    var _ :- Check(t.recipientLockHash == Some(p.recipientLockHash), RecipientMismatch);
    var _ :- Check(v.ownerNet == 0, OwnerOutputForbidden);
    var _ :- Check(v.topUp == 0, TopUpForbidden);
    var _ :- Check(before.occurrences < p.occurrenceLimit, OccurrenceLimitReached);
    var expected := v.input - v.recipient - FeeFromVault(p, v.fee);
    var _ :- Check(expected >= 0 && v.output == expected, AssetConservationFailed);
    var output :- RequireOutputState(p, before, t);
    var left :- Amount(output.remaining);
    var _ :- Check(left == expected, StateRemainingMismatch);
    var _ :- Check(output.occurrences == before.occurrences + 1, OccurrenceCountInvalid);
    var _ :- Check(output.status == Active, StatusInvalid);
    var later := if before.nextValidAfter > now then before.nextValidAfter else now;
    var _ :- Check(output.nextValidAfter == later + p.cadence, NextCadenceInvalid);
    Ok(output)
  }

  function ValidateOwnerTopUp(p: Policy, before: State, t: Transition, v: Amounts): (r: Result<State, Code>) {
    var _ :- Check(p.ownerLockHash in t.authLockHashes, AuthRequired);
    var _ :- Check(before.status == Active, VaultRevoked);
    var _ :- Check(v.topUp > 0, TopUpRequired);
    var _ :- Check(v.recipient == 0, RecipientOutputForbidden);
    var _ :- Check(v.ownerNet == 0, OwnerOutputForbidden);
    var _ :- Check(v.fee == 0, ExternalFeeRequired);
    var expected := v.input + v.topUp;
    var cap :- Amount(p.totalCap);
    var _ :- Check(expected <= cap && v.output == expected, TotalCapExceeded);
    var output :- RequireOutputState(p, before, t);
    var left :- Amount(output.remaining);
    var _ :- Check(left == expected && output.occurrences == before.occurrences
             && output.nextValidAfter == before.nextValidAfter && output.status == Active, TopUpStateInvalid);
    Ok(output)
  }

  function ValidateOwnerRevoke(p: Policy, before: State, t: Transition, v: Amounts): (r: Result<State, Code>) {
    var _ :- Check(p.ownerLockHash in t.authLockHashes, AuthRequired);
    var _ :- Check(v.recipient == 0, RecipientOutputForbidden);
    var _ :- Check(v.ownerNet == 0, OwnerOutputForbidden);
    var _ :- Check(v.topUp == 0, TopUpForbidden);
    var _ :- Check(v.fee == 0, ExternalFeeRequired);
    var _ :- Check(v.output == v.input, AssetConservationFailed);
    var output :- RequireOutputState(p, before, t);
    var _ :- Check(output.remaining == before.remaining && output.occurrences == before.occurrences
             && output.nextValidAfter == before.nextValidAfter && output.status == Revoked, RevokeStateInvalid);
    Ok(output)
  }

  function ValidateOwnerExit(p: Policy, t: Transition, v: Amounts, migration: bool): (r: Result<(), Code>) {
    var _ :- Check(p.ownerLockHash in t.authLockHashes, AuthRequired);
    var _ :- Check(t.outputState == None, StateOutputForbidden);
    var _ :- Check(v.output == 0, VaultChangeForbidden);
    var _ :- Check(v.recipient == 0, RecipientOutputForbidden);
    var _ :- Check(v.topUp == 0, TopUpForbidden);
    var _ :- Check(v.ownerNet == v.input - FeeFromVault(p, v.fee), OwnerConservationFailed);
    if migration then
      var _ :- Check(t.migrationTarget.Some? && t.migrationTarget.value != [], MigrationTargetRequired);
      var _ :- Check(IsHash(t.migrationTarget.value), InvalidHash);
      var _ :- Check(t.recipientLockHash == t.migrationTarget, MigrationTargetMismatch);
      Ok(())
    else
      var _ :- Check(t.recipientLockHash == Some(p.ownerLockHash), OwnerRecipientMismatch);
      Ok(())
  }

  /** The state cell an accepted transition leaves, `None` when it leaves none, or the reason it is refused. */
  function Validate(p: Policy, before: State, t: Transition): (r: Result<Option<State>, Code>) {
    var v :- ValidateCommon(p, before, t);
    match t.action
    case OperatorPayout =>
      var output :- ValidateOperatorPayout(p, before, t, v);
      Ok(Some(output))
    case OwnerTopUp =>
      var output :- ValidateOwnerTopUp(p, before, t, v);
      Ok(Some(output))
    case OwnerRevoke =>
      var output :- ValidateOwnerRevoke(p, before, t, v);
      Ok(Some(output))
    case OwnerReclaim =>
      var _ :- ValidateOwnerExit(p, t, v, false);
      Ok(None)
    case OwnerMigrate =>
      var _ :- ValidateOwnerExit(p, t, v, true);
      Ok(None)
  }
}
