/** Exactly which vault transitions are accepted, action by action, on the policy, the state and the transition, and who
    must have authorized every step of an accepted run (src/domain/vaultV2.ts). */
module VaultAnswers {
  import opened Wrappers
  import opened Money
  import opened Vault
  import opened VaultRuns

  predicate IsAmount(s: string) {
    ParseAtomic(s).Ok?
  }

  predicate Hexadecimal(s: string) {
    |s| == 66 && s[0] == '0' && s[1] == 'x' && forall i :: 2 <= i < 66 ==> s[i] in "0123456789abcdef"
  }

  predicate InRange(n: int) {
    0 <= n <= 9_007_199_254_740_991
  }

  /** A policy names five parties by hash, its caps are ordered, and every number is safe. */
  predicate GoodPolicy(p: Policy) {
    && Hexadecimal(p.policyHash) && Hexadecimal(p.passIdHash) && Hexadecimal(p.ownerLockHash)
    && Hexadecimal(p.operatorLockHash) && Hexadecimal(p.recipientLockHash)
    && (p.asset.Udt? ==> Hexadecimal(p.asset.typeHash))
    && IsAmount(p.totalCap) && IsAmount(p.perPaymentCap) && 0 < Amt(p.perPaymentCap) <= Amt(p.totalCap)
    && InRange(p.cadence) && InRange(p.occurrenceLimit) && p.occurrenceLimit > 0
    && (p.expiry.Some? ==> InRange(p.expiry.value)) && IsAmount(p.feeCeiling)
  }

  predicate GoodState(p: Policy, s: State) {
    && s.policyHash == p.policyHash && IsAmount(s.remaining) && Amt(s.remaining) <= Amt(p.totalCap)
    && InRange(s.occurrences) && InRange(s.nextValidAfter) && InRange(s.nonce)
  }

  /** Nothing but cells of this pass goes in, the asset is the committed one, the input is what the state says, and the fee
      is within the ceiling. */
  predicate GoodInputs(p: Policy, s: State, t: Transition) {
    && t.inputPassIdHashes != [] && (forall h :: h in t.inputPassIdHashes ==> h == p.passIdHash)
    && (match p.asset
        case NativeCkb => t.observedAssetTypeHash == None
        case Udt(h) => t.observedAssetTypeHash == Some(h) && IsAmount(t.stateCapacityDelta) && Amt(t.stateCapacityDelta) == 0)
    && IsAmount(t.input) && IsAmount(t.output) && IsAmount(t.recipient) && IsAmount(t.ownerNet) && IsAmount(t.topUp)
    && IsAmount(t.fee) && Amt(t.input) == Amt(s.remaining) && Amt(t.fee) <= Amt(p.feeCeiling)
  }

  predicate Common(p: Policy, s: State, t: Transition) {
    GoodPolicy(p) && GoodState(p, s) && GoodInputs(p, s, t)
  }

  /** What a fee takes out of the vault. */
  function Taken(p: Policy, t: Transition): nat {
    if p.asset == NativeCkb then Amt(t.fee) else 0
  }

  /** The transition leaves one state cell of the policy, with the next nonce. */
  predicate Leaves(p: Policy, s: State, t: Transition, o: State) {
    t.outputState == Some(o) && GoodState(p, o) && o.nonce == s.nonce + 1
  }

  lemma HashIs(s: string)
    ensures IsHash(s) <==> Hexadecimal(s)
  {
    if |s| == 66 {
      assert s[..2] == "0x" <==> s[0] == '0' && s[1] == 'x';
      forall i | 2 <= i < 66 ensures ('0' <= s[i] <= '9' || 'a' <= s[i] <= 'f') <==> s[i] in "0123456789abcdef" {
        HexDigit(s[i]);
      }
    }
  }

  lemma HexDigit(c: char)
    ensures ('0' <= c <= '9' || 'a' <= c <= 'f') <==> c in "0123456789abcdef"
  {
    var digits := "0123456789abcdef";
    if '0' <= c <= '9' {
      assert digits[(c as int) - ('0' as int)] == c;
    } else if 'a' <= c <= 'f' {
      assert digits[10 + (c as int) - ('a' as int)] == c;
    }
  }

  lemma PolicyIff(p: Policy)
    ensures ValidatePolicy(p).Ok? <==> GoodPolicy(p)
  {
    HashIs(p.policyHash);
    HashIs(p.passIdHash);
    HashIs(p.ownerLockHash);
    HashIs(p.operatorLockHash);
    HashIs(p.recipientLockHash);
    if p.asset.Udt? {
      HashIs(p.asset.typeHash);
    }
  }

  lemma StateIff(p: Policy, s: State)
    requires GoodPolicy(p)
    ensures ValidateState(p, s).Ok? <==> GoodState(p, s)
  {}

  lemma SameHashes(hashes: seq<string>, hash: string)
    ensures (forall h :: h in hashes ==> h == hash) <==> forall i :: 0 <= i < |hashes| ==> hashes[i] == hash
  {
    if forall h :: h in hashes ==> h == hash {
      forall i | 0 <= i < |hashes| ensures hashes[i] == hash {
        assert hashes[i] in hashes;
      }
    }
  }

  lemma InputsIff(p: Policy, s: State, t: Transition)
    ensures ValidateCommon(p, s, t).Ok? <==> Common(p, s, t)
    ensures Common(p, s, t) ==>
              ValidateCommon(p, s, t)
              == Ok(Amounts(Amt(t.input), Amt(t.output), Amt(t.recipient), Amt(t.ownerNet), Amt(t.topUp), Amt(t.fee)))
  {
    PolicyIff(p);
    if GoodPolicy(p) {
      StateIff(p, s);
      SameHashes(t.inputPassIdHashes, p.passIdHash);
    }
  }

  lemma LeavesIff(p: Policy, s: State, t: Transition)
    requires Common(p, s, t)
    ensures RequireOutputState(p, s, t).Ok? <==> t.outputState.Some? && Leaves(p, s, t, t.outputState.value)
    ensures RequireOutputState(p, s, t).Ok? ==> RequireOutputState(p, s, t).value == t.outputState.value
  {
    if t.outputState.Some? {
      StateIff(p, t.outputState.value);
    }
  }

  /** A payout is accepted exactly when the operator authorized it, the vault is active, verified time has passed the
      cadence and not the expiry, an occurrence is left, the committed recipient gets at most the cap, nothing else moves,
      and the state cell left holds the rest, counts the payout and sets the next cadence. */
  lemma PayoutAcceptedIff(p: Policy, s: State, t: Transition, o: State)
    requires t.action == OperatorPayout
    ensures Validate(p, s, t) == Ok(Some(o)) <==>
            && Common(p, s, t) && p.operatorLockHash in t.authLockHashes && s.status == Active
            && t.verifiedTime.Some? && InRange(t.verifiedTime.value) && s.nextValidAfter <= t.verifiedTime.value
            && (p.expiry.Some? ==> t.verifiedTime.value < p.expiry.value) && s.occurrences < p.occurrenceLimit
            && 0 < Amt(t.recipient) <= Amt(p.perPaymentCap) && t.recipientLockHash == Some(p.recipientLockHash)
            && Amt(t.ownerNet) == 0 && Amt(t.topUp) == 0
            && Amt(s.remaining) == Amt(t.recipient) + Taken(p, t) + Amt(t.output)
            && Leaves(p, s, t, o) && Amt(o.remaining) == Amt(t.output) && o.occurrences == s.occurrences + 1
            && o.status == Active && o.nextValidAfter == t.verifiedTime.value + p.cadence
    ensures Validate(p, s, t) != Ok(None)
  {
    InputsIff(p, s, t);
    if Common(p, s, t) {
      LeavesIff(p, s, t);
    }
  }

  /** A top-up is accepted exactly when the owner authorized it, the vault is active, something comes in and nothing goes
      out, the total stays within the cap, and the state cell left holds the sum and nothing else new. */
  lemma TopUpAcceptedIff(p: Policy, s: State, t: Transition, o: State)
    requires t.action == OwnerTopUp
    ensures Validate(p, s, t) == Ok(Some(o)) <==>
            && Common(p, s, t) && p.ownerLockHash in t.authLockHashes && s.status == Active
            && Amt(t.topUp) > 0 && Amt(t.recipient) == 0 && Amt(t.ownerNet) == 0 && Amt(t.fee) == 0
            && Amt(t.output) == Amt(s.remaining) + Amt(t.topUp) <= Amt(p.totalCap)
            && Leaves(p, s, t, o) && Amt(o.remaining) == Amt(t.output) && o.occurrences == s.occurrences
            && o.nextValidAfter == s.nextValidAfter && o.status == Active
    ensures Validate(p, s, t) != Ok(None)
  {
    InputsIff(p, s, t);
    if Common(p, s, t) {
      LeavesIff(p, s, t);
    }
  }

  /** A revocation is accepted exactly when the owner authorized it, nothing moves, and the state cell left differs by the
      nonce and its revoked status only. */
  lemma RevokeAcceptedIff(p: Policy, s: State, t: Transition, o: State)
    requires t.action == OwnerRevoke
    ensures Validate(p, s, t) == Ok(Some(o)) <==>
            && Common(p, s, t) && p.ownerLockHash in t.authLockHashes
            && Amt(t.recipient) == 0 && Amt(t.ownerNet) == 0 && Amt(t.topUp) == 0 && Amt(t.fee) == 0
            && Amt(t.output) == Amt(s.remaining)
            && Leaves(p, s, t, o) && o == s.(nonce := s.nonce + 1, status := Revoked)
    ensures Validate(p, s, t) != Ok(None)
  {
    InputsIff(p, s, t);
    if Common(p, s, t) {
      LeavesIff(p, s, t);
    }
  }

  /** An exit is accepted exactly when the owner authorized it, no state cell and no change are left, and everything but a
      native fee goes out: on a reclaim to the owner's lock, on a migration to the named target. */
  lemma ExitAcceptedIff(p: Policy, s: State, t: Transition)
    requires t.action == OwnerReclaim || t.action == OwnerMigrate
    ensures Validate(p, s, t) == Ok(None) <==>
            && Common(p, s, t) && p.ownerLockHash in t.authLockHashes && t.outputState == None
            && Amt(t.output) == 0 && Amt(t.recipient) == 0 && Amt(t.topUp) == 0
            && Amt(s.remaining) == Amt(t.ownerNet) + Taken(p, t)
            && (if t.action == OwnerReclaim then t.recipientLockHash == Some(p.ownerLockHash)
                else t.migrationTarget.Some? && Hexadecimal(t.migrationTarget.value) && t.recipientLockHash == t.migrationTarget)
    ensures Validate(p, s, t).Ok? ==> Validate(p, s, t).value == None
  {
    InputsIff(p, s, t);
    if t.migrationTarget.Some? {
      HashIs(t.migrationTarget.value);
    }
  }

  // The reason of every refusal.

  /** The first of two reasons. */
  function Or(first: Option<Code>, second: Option<Code>): Option<Code> {
    if first.Some? then first else second
  }

  function PolicyRefusal(p: Policy): Option<Code> {
    if !(Hexadecimal(p.policyHash) && Hexadecimal(p.passIdHash) && Hexadecimal(p.ownerLockHash)
         && Hexadecimal(p.operatorLockHash) && Hexadecimal(p.recipientLockHash) && (p.asset.Udt? ==> Hexadecimal(p.asset.typeHash)))
    then Some(InvalidHash)
    else if !IsAmount(p.totalCap) || !IsAmount(p.perPaymentCap) then Some(InvalidAmount)
    else if Amt(p.perPaymentCap) == 0 || Amt(p.totalCap) < Amt(p.perPaymentCap) then Some(InvalidCap)
    else if !InRange(p.cadence) || !InRange(p.occurrenceLimit) then Some(InvalidInteger)
    else if p.occurrenceLimit == 0 then Some(InvalidOccurrenceLimit)
    else if p.expiry.Some? && !InRange(p.expiry.value) then Some(InvalidInteger)
    else if !IsAmount(p.feeCeiling) then Some(InvalidAmount)
    else None
  }

  function StateRefusal(p: Policy, s: State): Option<Code> {
    if s.policyHash != p.policyHash then Some(PolicyHashMismatch)
    else if !IsAmount(s.remaining) then Some(InvalidAmount)
    else if Amt(p.totalCap) < Amt(s.remaining) then Some(TotalCapExceeded)
    else if !(InRange(s.occurrences) && InRange(s.nextValidAfter) && InRange(s.nonce)) then Some(InvalidInteger)
    else None
  }

  function InputsRefusal(p: Policy, s: State, t: Transition): Option<Code> {
    if t.inputPassIdHashes == [] || exists h :: h in t.inputPassIdHashes && h != p.passIdHash then Some(PassCellMixing)
    else if p.asset == NativeCkb && t.observedAssetTypeHash.Some? then Some(UnexpectedTypeScript)
    else if p.asset.Udt? && t.observedAssetTypeHash != Some(p.asset.typeHash) then Some(AssetTypeMismatch)
    else if p.asset.Udt? && !IsAmount(t.stateCapacityDelta) then Some(InvalidAmount)
    else if p.asset.Udt? && Amt(t.stateCapacityDelta) != 0 then Some(UdtStateCapacityChanged)
    else if !(IsAmount(t.input) && IsAmount(t.output) && IsAmount(t.recipient) && IsAmount(t.ownerNet) && IsAmount(t.topUp)
              && IsAmount(t.fee))
    then Some(InvalidAmount)
    else if Amt(t.input) != Amt(s.remaining) then Some(InputStateAssetMismatch)
    else if Amt(p.feeCeiling) < Amt(t.fee) then Some(FeeCeilingExceeded)
    else None
  }

  function OutputRefusal(p: Policy, s: State, t: Transition): Option<Code> {
    if t.outputState.None? then Some(OutputStateRequired)
    else if StateRefusal(p, t.outputState.value).Some? then StateRefusal(p, t.outputState.value)
    else if t.outputState.value.nonce != s.nonce + 1 then Some(NonceInvalid)
    else None
  }

  function TimeRefusal(p: Policy, s: State, t: Transition): Option<Code> {
    if t.verifiedTime.None? then Some(TimeEvidenceRequired)
    else if !InRange(t.verifiedTime.value) then Some(InvalidInteger)
    else if t.verifiedTime.value < s.nextValidAfter then Some(CadenceNotReached)
    else if p.expiry.Some? && p.expiry.value <= t.verifiedTime.value then Some(VaultExpired)
    else None
  }

  function PayoutRefusal(p: Policy, s: State, t: Transition): Option<Code> {
    if p.operatorLockHash !in t.authLockHashes then Some(AuthRequired)
    else if s.status == Revoked then Some(VaultRevoked)
    else if TimeRefusal(p, s, t).Some? then TimeRefusal(p, s, t)
    else if Amt(t.recipient) == 0 || Amt(p.perPaymentCap) < Amt(t.recipient) then Some(PaymentCapExceeded)
    else if Amt(s.remaining) < Amt(t.recipient) then Some(InsufficientRemaining)
    else if t.recipientLockHash != Some(p.recipientLockHash) then Some(RecipientMismatch)
    else if Amt(t.ownerNet) > 0 then Some(OwnerOutputForbidden)
    else if Amt(t.topUp) > 0 then Some(TopUpForbidden)
    else if p.occurrenceLimit <= s.occurrences then Some(OccurrenceLimitReached)
    else if Amt(t.output) + Amt(t.recipient) + Taken(p, t) != Amt(s.remaining) then Some(AssetConservationFailed)
    else if OutputRefusal(p, s, t).Some? then OutputRefusal(p, s, t)
    else
      var o := t.outputState.value;
      if Amt(o.remaining) != Amt(t.output) then Some(StateRemainingMismatch)
      else if o.occurrences != s.occurrences + 1 then Some(OccurrenceCountInvalid)
      else if o.status == Revoked then Some(StatusInvalid)
      else if o.nextValidAfter != t.verifiedTime.value + p.cadence then Some(NextCadenceInvalid)
      else None
  }

  function TopUpRefusal(p: Policy, s: State, t: Transition): Option<Code> {
    if p.ownerLockHash !in t.authLockHashes then Some(AuthRequired)
    else if s.status == Revoked then Some(VaultRevoked)
    else if Amt(t.topUp) == 0 then Some(TopUpRequired)
    else if Amt(t.recipient) > 0 then Some(RecipientOutputForbidden)
    else if Amt(t.ownerNet) > 0 then Some(OwnerOutputForbidden)
    else if Amt(t.fee) > 0 then Some(ExternalFeeRequired)
    else if Amt(p.totalCap) < Amt(s.remaining) + Amt(t.topUp) || Amt(t.output) != Amt(s.remaining) + Amt(t.topUp)
    then Some(TotalCapExceeded)
    else if OutputRefusal(p, s, t).Some? then OutputRefusal(p, s, t)
    else
      var o := t.outputState.value;
      if Amt(o.remaining) != Amt(t.output) || o.occurrences != s.occurrences || o.nextValidAfter != s.nextValidAfter
         || o.status == Revoked
      then Some(TopUpStateInvalid) else None
  }

  function RevokeRefusal(p: Policy, s: State, t: Transition): Option<Code> {
    if p.ownerLockHash !in t.authLockHashes then Some(AuthRequired)
    else if Amt(t.recipient) > 0 then Some(RecipientOutputForbidden)
    else if Amt(t.ownerNet) > 0 then Some(OwnerOutputForbidden)
    else if Amt(t.topUp) > 0 then Some(TopUpForbidden)
    else if Amt(t.fee) > 0 then Some(ExternalFeeRequired)
    else if Amt(t.output) != Amt(s.remaining) then Some(AssetConservationFailed)
    else if OutputRefusal(p, s, t).Some? then OutputRefusal(p, s, t)
    else if t.outputState.value != s.(nonce := s.nonce + 1, status := Revoked) then Some(RevokeStateInvalid)
    else None
  }

  function ExitRefusal(p: Policy, s: State, t: Transition): Option<Code> {
    if p.ownerLockHash !in t.authLockHashes then Some(AuthRequired)
    else if t.outputState.Some? then Some(StateOutputForbidden)
    else if Amt(t.output) > 0 then Some(VaultChangeForbidden)
    else if Amt(t.recipient) > 0 then Some(RecipientOutputForbidden)
    else if Amt(t.topUp) > 0 then Some(TopUpForbidden)
    else if Amt(t.ownerNet) + Taken(p, t) != Amt(s.remaining) then Some(OwnerConservationFailed)
    else if t.action == OwnerReclaim then
      if t.recipientLockHash != Some(p.ownerLockHash) then Some(OwnerRecipientMismatch) else None
    else if t.migrationTarget in {None, Some("")} then Some(MigrationTargetRequired)
    else if !Hexadecimal(t.migrationTarget.value) then Some(InvalidHash)
    else if t.recipientLockHash != t.migrationTarget then Some(MigrationTargetMismatch)
    else None
  }

  function ActionRefusal(p: Policy, s: State, t: Transition): Option<Code> {
    match t.action
    case OperatorPayout => PayoutRefusal(p, s, t)
    case OwnerTopUp => TopUpRefusal(p, s, t)
    case OwnerRevoke => RevokeRefusal(p, s, t)
    case _ => ExitRefusal(p, s, t)
  }

  function Refusal(p: Policy, s: State, t: Transition): Option<Code> {
    Or(PolicyRefusal(p), Or(StateRefusal(p, s), Or(InputsRefusal(p, s, t), ActionRefusal(p, s, t))))
  }

  lemma PolicyRefused(p: Policy)
    ensures ValidatePolicy(p) == match PolicyRefusal(p) case None => Ok(()) case Some(e) => Err(e)
  {
    PolicyIff(p);
    HashIs(p.policyHash);
    HashIs(p.passIdHash);
    HashIs(p.ownerLockHash);
    HashIs(p.operatorLockHash);
    HashIs(p.recipientLockHash);
    if p.asset.Udt? {
      HashIs(p.asset.typeHash);
    }
  }

  lemma StateRefused(p: Policy, s: State)
    requires GoodPolicy(p)
    ensures ValidateState(p, s) == match StateRefusal(p, s) case None => Ok(()) case Some(e) => Err(e)
  {}

  lemma CommonRefused(p: Policy, s: State, t: Transition)
    ensures ValidateCommon(p, s, t).Err? ==>
              Some(ValidateCommon(p, s, t).error) == Or(PolicyRefusal(p), Or(StateRefusal(p, s), InputsRefusal(p, s, t)))
    ensures Common(p, s, t) <==> Or(PolicyRefusal(p), Or(StateRefusal(p, s), InputsRefusal(p, s, t))).None?
  {
    PolicyRefused(p);
    PolicyIff(p);
    if GoodPolicy(p) {
      StateRefused(p, s);
      SameHashes(t.inputPassIdHashes, p.passIdHash);
    }
  }

  ghost predicate OutputAnswered(p: Policy, s: State, t: Transition) {
    RequireOutputState(p, s, t) == match OutputRefusal(p, s, t) case None => Ok(t.outputState.value) case Some(e) => Err(e)
  }

  lemma OutputRefused(p: Policy, s: State, t: Transition)
    requires Common(p, s, t)
    ensures OutputAnswered(p, s, t)
  {
    if t.outputState.Some? {
      StateRefused(p, t.outputState.value);
    }
  }

  lemma ActionRefused(p: Policy, s: State, t: Transition)
    requires Common(p, s, t)
    ensures Validate(p, s, t).Err? ==> Some(Validate(p, s, t).error) == ActionRefusal(p, s, t)
    ensures Validate(p, s, t).Ok? <==> ActionRefusal(p, s, t).None?
  {
    InputsIff(p, s, t);
    OutputRefused(p, s, t);
    match t.action
    case OperatorPayout => PayoutRefused(p, s, t);
    case OwnerTopUp => TopUpRefused(p, s, t);
    case OwnerRevoke => RevokeRefused(p, s, t);
    case _ => ExitRefused(p, s, t);
  }

  function Parsed(t: Transition): Amounts {
    Amounts(Amt(t.input), Amt(t.output), Amt(t.recipient), Amt(t.ownerNet), Amt(t.topUp), Amt(t.fee))
  }

  lemma TimeRefused(p: Policy, s: State, t: Transition)
    ensures RequireVerifiedTime(p, s, t) == match TimeRefusal(p, s, t) case None => Ok(t.verifiedTime.value) case Some(e) => Err(e)
  {}

  lemma PayoutRefused(p: Policy, s: State, t: Transition)
    requires IsAmount(p.perPaymentCap) && IsAmount(p.totalCap) && Amt(t.input) == Amt(s.remaining) && OutputAnswered(p, s, t)
    ensures ValidateOperatorPayout(p, s, t, Parsed(t))
            == match PayoutRefusal(p, s, t) case None => Ok(t.outputState.value) case Some(e) => Err(e)
  {
    TimeRefused(p, s, t);
  }

  lemma TopUpRefused(p: Policy, s: State, t: Transition)
    requires IsAmount(p.perPaymentCap) && IsAmount(p.totalCap) && Amt(t.input) == Amt(s.remaining) && OutputAnswered(p, s, t)
    ensures ValidateOwnerTopUp(p, s, t, Parsed(t))
            == match TopUpRefusal(p, s, t) case None => Ok(t.outputState.value) case Some(e) => Err(e)
  {}

  lemma RevokeRefused(p: Policy, s: State, t: Transition)
    requires IsAmount(p.perPaymentCap) && IsAmount(p.totalCap) && Amt(t.input) == Amt(s.remaining) && OutputAnswered(p, s, t)
    ensures ValidateOwnerRevoke(p, s, t, Parsed(t))
            == match RevokeRefusal(p, s, t) case None => Ok(t.outputState.value) case Some(e) => Err(e)
  {}

  lemma ExitRefused(p: Policy, s: State, t: Transition)
    requires Common(p, s, t) && (t.action == OwnerReclaim || t.action == OwnerMigrate)
    ensures ValidateOwnerExit(p, t, Parsed(t), t.action == OwnerMigrate)
            == match ExitRefusal(p, s, t) case None => Ok(()) case Some(e) => Err(e)
  {
    if t.migrationTarget.Some? {
      HashIs(t.migrationTarget.value);
    }
  }

  /** Every transition is refused for the first of its reasons, and accepted if there is none. */
  lemma RefusedFor(p: Policy, s: State, t: Transition)
    ensures Validate(p, s, t).Ok? <==> Refusal(p, s, t).None?
    ensures Validate(p, s, t).Err? ==> Refusal(p, s, t) == Some(Validate(p, s, t).error)
  {
    CommonRefused(p, s, t);
    InputsIff(p, s, t);
    if Common(p, s, t) {
      ActionRefused(p, s, t);
    }
  }

  /** Who must have authorized a transition. */
  function Authority(p: Policy, t: Transition): string {
    if t.action == OperatorPayout then p.operatorLockHash else p.ownerLockHash
  }

  /** Without its authority a transition is refused for that, whatever else is wrong with it. */
  lemma AuthorityFirst(p: Policy, s: State, t: Transition)
    requires Common(p, s, t)
    ensures Validate(p, s, t) == Err(AuthRequired) <==> Authority(p, t) !in t.authLockHashes
  {
    CommonRefused(p, s, t);
    RefusedFor(p, s, t);
    if Authority(p, t) in t.authLockHashes {
      OutputReasons(p, s, t);
    }
  }

  lemma OutputReasons(p: Policy, s: State, t: Transition)
    ensures OutputRefusal(p, s, t) != Some(AuthRequired)
  {}

  /** One accepted transition was authorized, and an exit pays the owner's lock or the named target. */
  lemma StepAuthorized(p: Policy, s: State, t: Transition)
    requires Validate(p, s, t).Ok?
    ensures Authority(p, t) in t.authLockHashes
    ensures t.action == OwnerReclaim ==> t.recipientLockHash == Some(p.ownerLockHash)
    ensures t.action == OwnerMigrate ==> t.migrationTarget.Some? && t.recipientLockHash == t.migrationTarget
    ensures Validate(p, s, t).value == None <==> t.action == OwnerReclaim || t.action == OwnerMigrate
  {
    match Validate(p, s, t).value
    case None =>
      if t.action == OwnerReclaim || t.action == OwnerMigrate {
        ExitAcceptedIff(p, s, t);
      } else {
        LeavesSomething(p, s, t);
      }
    case Some(o) =>
      match t.action
      case OperatorPayout => PayoutAcceptedIff(p, s, t, o);
      case OwnerTopUp => TopUpAcceptedIff(p, s, t, o);
      case OwnerRevoke => RevokeAcceptedIff(p, s, t, o);
      case _ => ExitAcceptedIff(p, s, t);
  }

  lemma LeavesSomething(p: Policy, s: State, t: Transition)
    requires t.action == OperatorPayout || t.action == OwnerTopUp || t.action == OwnerRevoke
    ensures Validate(p, s, t) != Ok(None)
  {}

  /** Every transition of an accepted run was authorized by the operator if it is a payout and by the owner otherwise, and
      only the last one can be an exit. */
  lemma {:induction false} RunAuthorized(p: Policy, s: State, ts: seq<Transition>, i: nat)
    requires Replay(p, s, ts).Ok? && i < |ts|
    ensures Authority(p, ts[i]) in ts[i].authLockHashes
    ensures ts[i].action == OwnerReclaim ==> ts[i].recipientLockHash == Some(p.ownerLockHash) && i == |ts| - 1
    ensures ts[i].action == OwnerMigrate ==>
              ts[i].migrationTarget.Some? && ts[i].recipientLockHash == ts[i].migrationTarget && i == |ts| - 1
  {
    var n := |ts| - 1;
    var m := LastAccepted(p, s, ts);
    if i == n {
      StepAuthorized(p, m, ts[n]);
    } else {
      RunAuthorized(p, s, ts[..n], i);
      if i == n - 1 {
        var before := LastAccepted(p, s, ts[..n]);
        assert ts[..n][n - 1] == ts[i];
        StepAuthorized(p, before, ts[i]);
      }
    }
  }
}
