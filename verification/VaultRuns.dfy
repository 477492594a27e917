/** What holds over every run of accepted vault transitions. */
module VaultRuns {
  import opened Wrappers
  import opened Decimals
  import opened Money
  import opened Tallies
  import opened Vault

  function Amt(s: string): nat {
    if ParseAtomic(s).Ok? then ParseAtomic(s).value else 0
  }

  function PaidToRecipient(): Transition -> nat {
    (t: Transition) => Amt(t.recipient)
  }

  function ToppedUp(): Transition -> nat {
    (t: Transition) => Amt(t.topUp)
  }

  function VaultFee(p: Policy): Transition -> nat {
    (t: Transition) => FeeFromVault(p, Amt(t.fee))
  }

  function ReturnedToOwner(): Transition -> nat {
    (t: Transition) => Amt(t.ownerNet)
  }

  /** What one more transition makes of a run; once no state cell is left, nothing more is accepted. */
  function Then(p: Policy, r: Result<Option<State>, Code>, t: Transition): Result<Option<State>, Code> {
    match r
    case Err(e) => Err(e)
    case Ok(None) => Err(NoStateCell)
    case Ok(Some(m)) => Validate(p, m, t)
  }

  /** The state cell left after a whole sequence of transitions. */
  function Replay(p: Policy, s: State, ts: seq<Transition>): (r: Result<Option<State>, Code>) {
    if ts == [] then Ok(Some(s)) else Then(p, Replay(p, s, ts[..|ts| - 1]), ts[|ts| - 1])
  }

  function Left(r: Option<State>): nat {
    if r.Some? then Amt(r.value.remaining) else 0
  }

  // One accepted transition, action by action.

  ghost predicate CommonOk(p: Policy, s: State, t: Transition, v: Amounts) {
    && ValidatePolicy(p).Ok? && ValidateState(p, s).Ok? && p.cadence >= 0
    && v.input == Amt(s.remaining) && v.recipient == Amt(t.recipient) && v.ownerNet == Amt(t.ownerNet)
    && v.topUp == Amt(t.topUp) && v.fee == Amt(t.fee)
  }

  lemma CommonFacts(p: Policy, s: State, t: Transition, v: Amounts)
    requires ValidateCommon(p, s, t) == Ok(v)
    ensures CommonOk(p, s, t, v)
  {}

  /** The money of one transition: what was there and came in is what was paid and is left. */
  ghost predicate Balanced(p: Policy, s: State, t: Transition, r: Option<State>) {
    Amt(s.remaining) + Amt(t.topUp) == Amt(t.recipient) + FeeFromVault(p, Amt(t.fee)) + Amt(t.ownerNet) + Left(r)
  }

  ghost predicate StateKept(p: Policy, s: State, r: Option<State>) {
    && ValidatePolicy(p).Ok? && ValidateState(p, s).Ok?
    && (r.Some? ==> ValidateState(p, r.value).Ok? && r.value.nonce == s.nonce + 1)
  }

  /** What one accepted transition does to the clock and the count of payouts, and whom it pays. */
  ghost predicate Timed(p: Policy, s: State, t: Transition, r: Option<State>) {
    if t.action == OperatorPayout then
      && t.verifiedTime.Some? && r.Some? && t.recipientLockHash == Some(p.recipientLockHash)
      && t.verifiedTime.value >= s.nextValidAfter && (p.expiry.Some? ==> t.verifiedTime.value < p.expiry.value)
      && 0 < Amt(t.recipient) <= Amt(p.perPaymentCap)
      && s.occurrences + 1 == r.value.occurrences <= p.occurrenceLimit
      && r.value.nextValidAfter >= t.verifiedTime.value + p.cadence && p.cadence >= 0
    else
      && Amt(t.recipient) == 0
      && (r.Some? ==> r.value.occurrences == s.occurrences && r.value.nextValidAfter == s.nextValidAfter)
  }

  ghost predicate StaysRevoked(s: State, t: Transition, r: Option<State>) {
    s.status == Revoked ==>
      && Amt(t.recipient) == 0 && Amt(t.topUp) == 0
      && (r.Some? ==> r.value.status == Revoked && r.value.remaining == s.remaining)
  }

  ghost predicate Accepted(p: Policy, s: State, t: Transition, r: Option<State>) {
    Balanced(p, s, t, r) && StateKept(p, s, r) && Timed(p, s, t, r) && StaysRevoked(s, t, r)
  }

  lemma OutputFacts(p: Policy, s: State, t: Transition)
    requires RequireOutputState(p, s, t).Ok?
    ensures var o := RequireOutputState(p, s, t).value;
            ValidateState(p, o).Ok? && o.nonce == s.nonce + 1
  {}

  lemma PayoutAccepted(p: Policy, s: State, t: Transition, v: Amounts)
    requires CommonOk(p, s, t, v) && t.action == OperatorPayout && ValidateOperatorPayout(p, s, t, v).Ok?
    ensures Accepted(p, s, t, Some(ValidateOperatorPayout(p, s, t, v).value))
  {
    OutputFacts(p, s, t);
  }

  lemma TopUpAccepted(p: Policy, s: State, t: Transition, v: Amounts)
    requires CommonOk(p, s, t, v) && t.action == OwnerTopUp && ValidateOwnerTopUp(p, s, t, v).Ok?
    ensures Accepted(p, s, t, Some(ValidateOwnerTopUp(p, s, t, v).value))
  {
    OutputFacts(p, s, t);
  }

  lemma RevokeAccepted(p: Policy, s: State, t: Transition, v: Amounts)
    requires CommonOk(p, s, t, v) && t.action == OwnerRevoke && ValidateOwnerRevoke(p, s, t, v).Ok?
    ensures Accepted(p, s, t, Some(ValidateOwnerRevoke(p, s, t, v).value))
  {
    OutputFacts(p, s, t);
  }

  lemma ExitAccepted(p: Policy, s: State, t: Transition, v: Amounts, migration: bool)
    requires CommonOk(p, s, t, v) && t.action != OperatorPayout && ValidateOwnerExit(p, t, v, migration).Ok?
    ensures Accepted(p, s, t, None)
  {}

  lemma StepAccepted(p: Policy, s: State, t: Transition)
    requires Validate(p, s, t).Ok?
    ensures Accepted(p, s, t, Validate(p, s, t).value)
  {
    var v := ValidateCommon(p, s, t).value;
    CommonFacts(p, s, t, v);
    match t.action
    case OperatorPayout => PayoutAccepted(p, s, t, v);
    case OwnerTopUp => TopUpAccepted(p, s, t, v);
    case OwnerRevoke => RevokeAccepted(p, s, t, v);
    case OwnerReclaim => ExitAccepted(p, s, t, v, false);
    case OwnerMigrate => ExitAccepted(p, s, t, v, true);
  }

  /** One accepted transition moves the vault's money exactly as its amounts say. */
  lemma StepConserves(p: Policy, s: State, t: Transition)
    requires Validate(p, s, t).Ok?
    ensures Amt(s.remaining) + Amt(t.topUp)
         == Amt(t.recipient) + FeeFromVault(p, Amt(t.fee)) + Amt(t.ownerNet) + Left(Validate(p, s, t).value)
  {
    StepAccepted(p, s, t);
  }

  /** One accepted transition starts and ends in a valid state and raises the nonce by one. */
  lemma StepKeepsState(p: Policy, s: State, t: Transition)
    requires Validate(p, s, t).Ok?
    ensures StateKept(p, s, Validate(p, s, t).value)
  {
    StepAccepted(p, s, t);
  }

  /** The last transition of an accepted run was accepted by the state before it. */
  lemma LastAccepted(p: Policy, s: State, ts: seq<Transition>) returns (m: State)
    requires ts != [] && Replay(p, s, ts).Ok?
    ensures Replay(p, s, ts[..|ts| - 1]) == Ok(Some(m))
    ensures Accepted(p, m, ts[|ts| - 1], Replay(p, s, ts).value)
  {
    m := Replay(p, s, ts[..|ts| - 1]).value.value;
    StepAccepted(p, m, ts[|ts| - 1]);
  }

  /** Conservation over any accepted run: what was there plus every top-up equals every payment to the
      recipient, every native fee, what the owner took at exit and what is left. */
  lemma {:induction false} RunConserves(p: Policy, s: State, ts: seq<Transition>)
    requires Replay(p, s, ts).Ok?
    ensures Amt(s.remaining) + Tally(ts, ToppedUp())
         == Tally(ts, PaidToRecipient()) + Tally(ts, VaultFee(p)) + Tally(ts, ReturnedToOwner())
            + Left(Replay(p, s, ts).value)
    ensures p.asset.Udt? ==> Tally(ts, VaultFee(p)) == 0
  {
    if ts != [] {
      var m := LastAccepted(p, s, ts);
      RunConserves(p, s, ts[..|ts| - 1]);
    }
  }

  /** Every state of an accepted run commits to the policy, stays within the total cap, and its nonce
      counts the transitions that left a state cell. */
  lemma {:induction false} RunKeepsState(p: Policy, s: State, ts: seq<Transition>)
    requires ValidateState(p, s).Ok? && Replay(p, s, ts).Ok?
    ensures var r := Replay(p, s, ts).value;
            && (r.Some? ==>
                 && ValidateState(p, r.value).Ok?
                 && Amt(r.value.remaining) <= Amt(p.totalCap)
                 && r.value.nonce == s.nonce + |ts|)
            && (r.None? ==> ts != [] && Replay(p, s, ts[..|ts| - 1]).Ok?
                            && Replay(p, s, ts[..|ts| - 1]).value.Some?
                            && Replay(p, s, ts[..|ts| - 1]).value.value.nonce == s.nonce + |ts| - 1)
  {
    if ts != [] {
      var m := LastAccepted(p, s, ts);
      RunKeepsState(p, s, ts[..|ts| - 1]);
    }
  }

  // Payouts.

  datatype Payout = Payout(time: int, amount: nat)

  function WithPayout(ps: seq<Payout>, t: Transition): seq<Payout> {
    ps + if t.action == OperatorPayout && t.verifiedTime.Some? then [Payout(t.verifiedTime.value, Amt(t.recipient))] else []
  }

  function Payouts(ts: seq<Transition>): (ps: seq<Payout>) {
    if ts == [] then [] else WithPayout(Payouts(ts[..|ts| - 1]), ts[|ts| - 1])
  }

  /** The recipient is paid by operator payouts only, and only the committed recipient is. */
  lemma OnlyPayoutsPay(p: Policy, s: State, t: Transition)
    requires Validate(p, s, t).Ok?
    ensures Amt(t.recipient) > 0 <==> t.action == OperatorPayout
    ensures t.action == OperatorPayout ==>
              && t.verifiedTime.Some? && t.recipientLockHash == Some(p.recipientLockHash)
              && Amt(t.recipient) <= Amt(p.perPaymentCap)
  {
    StepAccepted(p, s, t);
  }

  ghost predicate Spaced(ps: seq<Payout>, cadence: int) {
    forall k :: 0 < k < |ps| ==> ps[k].time >= ps[k - 1].time + cadence
  }

  ghost predicate PayoutsOk(p: Policy, s: State, ps: seq<Payout>, r: Option<State>) {
    && Spaced(ps, p.cadence)
    && (forall k :: 0 <= k < |ps| ==>
          && ps[k].time >= s.nextValidAfter
          && (p.expiry.Some? ==> ps[k].time < p.expiry.value)
          && 0 < ps[k].amount <= Amt(p.perPaymentCap))
    && (ps != [] ==> s.occurrences + |ps| <= p.occurrenceLimit)
    && (r.Some? ==>
          && r.value.occurrences == s.occurrences + |ps|
          && r.value.nextValidAfter >= s.nextValidAfter
          && (ps != [] ==> r.value.nextValidAfter >= ps[|ps| - 1].time + p.cadence))
  }

  /** In any accepted run, with top-ups interleaved anywhere: consecutive payouts are a cadence apart, all of
      them precede expiry and respect the per-payment cap, and the occurrence limit bounds their number. */
  lemma {:induction false} RunPayouts(p: Policy, s: State, ts: seq<Transition>)
    requires Replay(p, s, ts).Ok?
    ensures PayoutsOk(p, s, Payouts(ts), Replay(p, s, ts).value)
  {
    if ts != [] {
      var n := |ts| - 1;
      var m := LastAccepted(p, s, ts);
      RunPayouts(p, s, ts[..n]);
      PayoutStep(p, s, Payouts(ts[..n]), m, ts[n], Replay(p, s, ts).value);
    }
  }

  lemma PayoutStep(p: Policy, s: State, ps: seq<Payout>, m: State, t: Transition, r: Option<State>)
    requires PayoutsOk(p, s, ps, Some(m)) && Timed(p, m, t, r)
    ensures PayoutsOk(p, s, WithPayout(ps, t), r)
  {
    if t.action != OperatorPayout {
      assert WithPayout(ps, t) == ps;
    }
  }

  lemma {:induction false} SpacedApart(ps: seq<Payout>, cadence: nat, i: nat, j: nat)
    requires Spaced(ps, cadence) && i <= j < |ps|
    ensures ps[j].time - ps[i].time >= (j - i) * cadence
    decreases j - i
  {
    if i < j {
      SpacedApart(ps, cadence, i, j - 1);
      assert (j - i) * cadence == (j - 1 - i) * cadence + cadence;
    }
  }

  /** The j-th and the i-th payout are at least (j - i) cadences apart. */
  lemma PayoutsApart(p: Policy, s: State, ts: seq<Transition>, i: nat, j: nat)
    requires ValidatePolicy(p).Ok? && Replay(p, s, ts).Ok? && i <= j < |Payouts(ts)|
    ensures Payouts(ts)[j].time - Payouts(ts)[i].time >= (j - i) * p.cadence
  {
    RunPayouts(p, s, ts);
    SpacedApart(Payouts(ts), p.cadence, i, j);
  }

  /** The total paid at times from `lo` to `hi`, both included. */
  function PaidWithin(ps: seq<Payout>, lo: int, hi: int): (total: nat) {
    if ps == [] then 0
    else
      var last := ps[|ps| - 1];
      PaidWithin(ps[..|ps| - 1], lo, hi) + if lo <= last.time <= hi then last.amount else 0
  }

  lemma {:induction false} NarrowWindow(ps: seq<Payout>, lo: int, hi: int, hi': int)
    requires forall k :: 0 <= k < |ps| ==> ps[k].time <= hi'
    ensures PaidWithin(ps, lo, hi) <= PaidWithin(ps, lo, hi')
  {
    if ps != [] {
      NarrowWindow(ps[..|ps| - 1], lo, hi, hi');
    }
  }

  /** How many points a cadence apart fit in an interval of the given width. */
  function Slots(width: int, cadence: nat): (n: nat)
    requires cadence > 0
    decreases width
  {
    if width < 0 then 0 else 1 + Slots(width - cadence, cadence)
  }

  lemma {:induction false} SlotsGrow(a: int, b: int, cadence: nat)
    requires cadence > 0 && a <= b
    ensures Slots(a, cadence) <= Slots(b, cadence)
    decreases a
  {
    if a >= 0 {
      SlotsGrow(a - cadence, b - cadence, cadence);
    }
  }

  lemma {:induction false} SlotsByDivision(q: nat, r: nat, cadence: nat)
    requires r < cadence
    ensures Slots(q * cadence + r, cadence) == q + 1
  {
    if q > 0 {
      SlotsByDivision(q - 1, r, cadence);
      assert q * cadence + r - cadence == (q - 1) * cadence + r;
    }
  }

  lemma SlotsAre(width: nat, cadence: nat)
    requires cadence > 0
    ensures Slots(width, cadence) == width / cadence + 1
  {
    var q, r := width / cadence, width % cadence;
    SlotsByDivision(q, r, cadence);
    assert q * cadence + r == width;
  }

  lemma TimesOneMore(n: nat, m: nat, cap: nat)
    requires n + 1 <= m
    ensures n * cap + cap <= m * cap
  {
    Distributes(n, m - n, cap);
    Distributes(1, m - n - 1, cap);
  }

  lemma Distributes(a: nat, b: nat, cap: nat)
    ensures (a + b) * cap == a * cap + b * cap
  {}

  lemma {:induction false} SpacedWindow(ps: seq<Payout>, cadence: nat, cap: nat, lo: int, hi: int)
    requires cadence > 0 && Spaced(ps, cadence)
    requires forall k :: 0 <= k < |ps| ==> ps[k].amount <= cap
    ensures PaidWithin(ps, lo, hi) <= Slots(hi - lo, cadence) * cap
  {
    if ps != [] {
      var n := |ps| - 1;
      var last := ps[n];
      if lo <= last.time <= hi {
        EarlierPayouts(ps, n, cadence);
        var hi' := last.time - cadence;
        NarrowWindow(ps[..n], lo, hi, hi');
        SpacedWindow(ps[..n], cadence, cap, lo, hi');
        SlotsGrow(last.time - lo, hi - lo, cadence);
        assert Slots(last.time - lo, cadence) == 1 + Slots(hi' - lo, cadence);
        TimesOneMore(Slots(hi' - lo, cadence), Slots(hi - lo, cadence), cap);
      } else {
        SpacedWindow(ps[..n], cadence, cap, lo, hi);
      }
    }
  }

  lemma EarlierPayouts(ps: seq<Payout>, n: nat, cadence: nat)
    requires |ps| == n + 1 && Spaced(ps, cadence)
    ensures forall k :: 0 <= k < n ==> ps[k].time <= ps[n].time - cadence
  {
    forall k | 0 <= k < n ensures ps[k].time <= ps[n].time - cadence {
      SpacedApart(ps, cadence, k, n);
      TimesOneMore(0, n - k, cadence);
    }
  }

  lemma DividedWindow(ps: seq<Payout>, cadence: nat, cap: nat, lo: int, width: nat)
    requires cadence > 0 && Spaced(ps, cadence)
    requires forall k :: 0 <= k < |ps| ==> ps[k].amount <= cap
    ensures PaidWithin(ps, lo, lo + width) <= (width / cadence + 1) * cap
  {
    SpacedWindow(ps, cadence, cap, lo, lo + width);
    SlotsAre(width, cadence);
  }

  lemma RunSpaced(p: Policy, s: State, ts: seq<Transition>, cadence: nat, cap: nat)
    requires Replay(p, s, ts).Ok? && cadence == p.cadence && cap == Amt(p.perPaymentCap)
    ensures Spaced(Payouts(ts), cadence) && forall k :: 0 <= k < |Payouts(ts)| ==> Payouts(ts)[k].amount <= cap
  {
    RunPayouts(p, s, ts);
  }

  /** For a positive cadence, any window of the given width pays at most (width / cadence + 1) capped payments. */
  lemma WindowPaysAtMost(p: Policy, s: State, ts: seq<Transition>, lo: int, width: nat, cadence: nat, cap: nat)
    requires Replay(p, s, ts).Ok? && 0 < cadence == p.cadence && cap == Amt(p.perPaymentCap)
    ensures PaidWithin(Payouts(ts), lo, lo + width) <= (width / cadence + 1) * cap
  {
    RunSpaced(p, s, ts, cadence, cap);
    DividedWindow(Payouts(ts), cadence, cap, lo, width);
  }

  // Revocation and exit.

  lemma {:induction false} ReplayConcat(p: Policy, s: State, ts: seq<Transition>, us: seq<Transition>)
    requires Replay(p, s, ts).Ok? && Replay(p, s, ts).value.Some?
    ensures Replay(p, s, ts + us) == Replay(p, Replay(p, s, ts).value.value, us)
  {
    if us == [] {
      assert ts + us == ts;
    } else {
      var n := |us| - 1;
      ReplayConcat(p, s, ts, us[..n]);
      assert (ts + us)[..|ts + us| - 1] == ts + us[..n];
    }
  }

  lemma {:induction false} RevokedRun(p: Policy, m: State, us: seq<Transition>)
    requires m.status == Revoked && Replay(p, m, us).Ok?
    ensures Tally(us, PaidToRecipient()) == 0 && Tally(us, ToppedUp()) == 0
    ensures var r := Replay(p, m, us).value;
            r.Some? ==> r.value.status == Revoked && r.value.remaining == m.remaining
  {
    if us != [] {
      var last := LastAccepted(p, m, us);
      RevokedRun(p, m, us[..|us| - 1]);
    }
  }

  /** Once a run has reached a revoked state, however it is continued nothing more is paid or topped up, and the
      remaining amount stays put until the owner exits. */
  lemma AfterRevocation(p: Policy, s: State, ts: seq<Transition>, us: seq<Transition>)
    requires Replay(p, s, ts).Ok? && Replay(p, s, ts).value.Some? && Replay(p, s, ts).value.value.status == Revoked
    requires Replay(p, s, ts + us).Ok?
    ensures Tally(us, PaidToRecipient()) == 0 && Tally(us, ToppedUp()) == 0
    ensures var r := Replay(p, s, ts + us).value;
            r.Some? ==> r.value.status == Revoked && r.value.remaining == Replay(p, s, ts).value.value.remaining
  {
    ReplayConcat(p, s, ts, us);
    RevokedRun(p, Replay(p, s, ts).value.value, us);
  }

  /** The owner's reclaim of everything that remains, with the fee paid outside the vault. */
  function Reclaim(p: Policy, s: State, at: Option<int>): (t: Transition) {
    Transition(OwnerReclaim, [p.ownerLockHash], [p.passIdHash],
               if p.asset.Udt? then Some(p.asset.typeHash) else None,
               s.remaining, "0", Some(p.ownerLockHash), "0", s.remaining, "0", "0", "0", at, None, None)
  }

  lemma ZeroAmount()
    ensures Amount("0") == Ok(0)
  {
    assert Decimal(0) == "0";
    ParseExactlyPrints("0", 0);
  }

  lemma ReclaimAccepted(p: Policy, m: State, at: Option<int>)
    requires ValidatePolicy(p).Ok? && ValidateState(p, m).Ok?
    ensures Validate(p, m, Reclaim(p, m, at)) == Ok(None)
    ensures Amt(Reclaim(p, m, at).ownerNet) == Amt(m.remaining)
  {
    ZeroAmount();
  }

  /** From every reachable state, active, revoked or past expiry, at any time, the owner's reclaim of the whole
      remaining amount is accepted and closes the vault. */
  lemma ReclaimAlwaysAccepted(p: Policy, s: State, ts: seq<Transition>, at: Option<int>)
    requires ValidatePolicy(p).Ok? && ValidateState(p, s).Ok?
    requires Replay(p, s, ts).Ok? && Replay(p, s, ts).value.Some?
    ensures var m := Replay(p, s, ts).value.value;
            && Replay(p, s, ts + [Reclaim(p, m, at)]) == Ok(None)
            && Amt(Reclaim(p, m, at).ownerNet) == Amt(m.remaining)
  {
    var m := Replay(p, s, ts).value.value;
    RunKeepsState(p, s, ts);
    ReclaimAccepted(p, m, at);
    assert (ts + [Reclaim(p, m, at)])[..|ts|] == ts;
  }
}
