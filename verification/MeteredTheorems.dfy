/** What the metered ledger guarantees over every run: conservation, one way out of a reservation, replay, rates,
    batch totals that always match, and receipts that add up. */
module MeteredTheorems {
  import opened Wrappers
  import opened Money
  import opened Tallies
  import opened Receipts
  import opened Metered
  import opened MeteredInvariant
  import opened MeteredSteps
  import Funding
  import FundingInvariant

  // Conservation.

  function AcceptedOf(g: nat): Event -> nat {
    (e: Event) => if e.usage.grant == g then e.usage.amount else 0
  }

  function ReturnedOf(g: nat): Event -> nat {
    (e: Event) => if e.usage.grant == g && (e.status == EventReleased || e.status == EventFailed) then e.usage.amount else 0
  }

  /** Everything ever accepted on a grant is reserved, spent or was returned; a depleted grant holds nothing. */
  lemma GrantConserves(b: Books, g: nat)
    requires Inv(b) && g < |b.grants|
    ensures Tally(b.events, AcceptedOf(g)) == b.grants[g].reserved + b.grants[g].spent + Tally(b.events, ReturnedOf(g))
    ensures b.grants[g].reserved + b.grants[g].spent <= b.grants[g].totalLimit
    ensures b.grants[g].status == Depleted ==> b.grants[g].reserved == 0 && b.grants[g].spent == b.grants[g].totalLimit
  {
    assert GrantOk(b.grants[g], g, b.events, |b.sessions|);
    ThreeWays(b.events, g);
  }

  /** In every reachable ledger, what a session holds and has spent through metering is what its grants hold and have
      spent, and both are what its events say: open ones are held, settled ones spent, within the session's limit. */
  lemma {:induction false} SessionConserves(ops: seq<(Op, int)>, i: nat)
    requires i < |Run(EMPTY, ops).sessions|
    ensures var b := Run(EMPTY, ops);
            && b.sessions[i].reserved == Tally(b.grants, ReservedOn(i)) && b.sessions[i].spent == Tally(b.grants, SpentOn(i))
            && b.sessions[i].reserved + b.sessions[i].spent <= b.sessions[i].limit
            && (forall g :: 0 <= g < |b.grants| ==>
                  b.grants[g].reserved == Tally(b.events, OpenOf(g)) && b.grants[g].spent == Tally(b.events, SettledOf(g)))
  {
    Reachable(ops);
    var b := Run(EMPTY, ops);
    assert SessionOk(b.sessions[i], i, b.grants);
    forall g | 0 <= g < |b.grants|
      ensures b.grants[g].reserved == Tally(b.events, OpenOf(g)) && b.grants[g].spent == Tally(b.events, SettledOf(g))
    {
      assert GrantOk(b.grants[g], g, b.events, |b.sessions|);
    }
  }

  lemma {:induction false} ThreeWays(events: seq<Event>, g: nat)
    ensures Tally(events, AcceptedOf(g)) == Tally(events, OpenOf(g)) + Tally(events, SettledOf(g)) + Tally(events, ReturnedOf(g))
  {
    if events != [] {
      ThreeWays(events[..|events| - 1], g);
    }
  }

  function SettledIn(k: nat): Event -> nat {
    (e: Event) => if e.batch == k && e.status == EventSettled then e.usage.amount else 0
  }

  /** A batch's money is in exactly one place: all reserved while it lives, all spent once it succeeded, and all
      returned once it failed or was released. */
  lemma BatchMoney(b: Books, k: nat)
    requires Inv(b) && k < |b.batches|
    ensures var batch := b.batches[k];
            && Tally(b.events, AmountIn(k)) == batch.total && batch.total >= 1
            && Tally(b.events, OpenIn(k)) == (if IsTerminal(batch.status) then 0 else batch.total)
            && Tally(b.events, SettledIn(k)) == (if batch.status == Succeeded then batch.total else 0)
  {
    OpenInBatch(b, k);
    assert BatchOk(b.batches[k], k, b.grants, b.events);
    forall j | 0 <= j < |b.events|
      ensures b.events[j].batch == k ==> (b.events[j].status == EventSettled <==> b.batches[k].status == Succeeded)
    {
      assert EventOk(b.events[j], b.batches);
    }
    if b.batches[k].status == Succeeded {
      TallyEqual(b.events, SettledIn(k), b.events, AmountIn(k));
    } else {
      TallyZero(b.events, SettledIn(k));
    }
  }

  // One way out.

  /** An event keeps its terms, and keeps everything once it left "reserved" or "settling". */
  ghost predicate EventPersists(e: Event, later: Event) {
    SameCore(e, later) && (!IsOpen(e) ==> later == e)
  }

  /** A batch keeps its identity, never accepts again, keeps its totals once closed and everything once it ended. */
  ghost predicate BatchPersists(x: Batch, later: Batch) {
    && later.grant == x.grant && later.session == x.session && later.total >= x.total && later.count >= x.count
    && (x.submitted ==> later.submitted)
    && (!x.accepting ==> !later.accepting && later.total == x.total && later.count == x.count)
    && (IsTerminal(x.status) ==> later == x)
  }

  /** A grant keeps its limits, never spends less, and never becomes active again. */
  ghost predicate GrantPersists(g: Grant, later: Grant) {
    SameLimits(g, later) && later.spent >= g.spent && (g.status != Active ==> later.status == g.status)
  }

  ghost predicate Later(b: Books, t: Books) {
    && |b.events| <= |t.events| && |b.batches| <= |t.batches| && |b.grants| <= |t.grants|
    && (forall j :: 0 <= j < |b.events| ==> EventPersists(b.events[j], t.events[j]))
    && (forall k :: 0 <= k < |b.batches| ==> BatchPersists(b.batches[k], t.batches[k]))
    && (forall g :: 0 <= g < |b.grants| ==> GrantPersists(b.grants[g], t.grants[g]))
  }

  lemma AcceptBatchLater(b: Books, u: Usage, now: int, m: Books, room: seq<Batch>, k: nat, j: nat)
    requires Accepts(b, u, now, m, room, k) && j < |b.batches|
    ensures j < |m.batches| && BatchPersists(b.batches[j], m.batches[j])
  {
    assert BatchOk(b.batches[j], j, b.grants, b.events);
    if j != k {
      assert m.batches[j] == room[j];
    }
  }

  lemma AcceptLater(b: Books, u: Usage, now: int, m: Books, room: seq<Batch>, k: nat)
    requires Accepts(b, u, now, m, room, k)
    ensures Later(b, m)
  {
    forall j | 0 <= j < |b.batches| ensures BatchPersists(b.batches[j], m.batches[j]) {
      AcceptBatchLater(b, u, now, m, room, k, j);
    }
  }

  lemma SubmitLater(b: Books, owner: nat, u: Usage, now: int)
    requires Inv(b) && Submit(b, owner, u, now).Ok?
    ensures Later(b, Submit(b, owner, u, now).value.0)
  {
    if FindEvent(b.events, u.app, u.externalId).None? {
      var room, k := AcceptRows(b, owner, u, now);
      AcceptLater(b, u, now, Accept(b, u, now), room, k);
    } else {
      LaterReflexive(b);
    }
  }

  lemma EndLater(b: Books, k: nat, status: EventStatus, batch: Batch, g: Grant, s: Session, events: seq<Event>, funds: Funding.Ledger)
    requires EndsWith(b, k, status, batch, g, s) && Ended(b.events, events, k, status)
    ensures Later(b, EndBooks(b, k, batch, g, s, events, funds))
  {
    forall j | 0 <= j < |b.events| ensures EventPersists(b.events[j], events[j]) {
      assert SameCore(b.events[j], events[j]);
    }
  }

  lemma ReleaseLater(b: Books, k: nat, failed: bool, now: int)
    requires Inv(b) && k < |b.batches| && !IsTerminal(b.batches[k].status) && Release(b, k, failed, now).Ok?
    ensures Later(b, Release(b, k, failed, now).value)
  {
    var batch, g, s, events := ReleaseRows(b, k, failed, now);
    var status := if failed then EventFailed else EventReleased;
    ReleasedEvents(b, k, status);
    EndLater(b, k, status, batch, g, s, events, b.funds);
  }

  lemma FinalizeLater(b: Books, k: nat, listing: seq<nat>, fee: Fee, proof: nat, now: int)
    requires Inv(b) && IsListing(b.events, k, listing) && k < |b.batches| && b.batches[k].status != Succeeded
    requires Finalize(b, k, listing, fee, proof, now).Ok?
    ensures Later(b, Finalize(b, k, listing, fee, proof, now).value)
  {
    var batch, total := b.batches[k], Tally(b.events, OpenIn(k));
    var shares := FinalizeRows(b, k, listing, fee, proof, now);
    SettleRows(b, k, total, now);
    SettledEnds(b, k, listing, shares, fee.Known?, proof, now);
    EndLater(b, k, EventSettled, End(batch, Succeeded, now), SettleGrant(b.grants[batch.grant], total),
             SettleSession(b.sessions[batch.session], total),
             IssueReceipts(Conclude(b.events, k, EventSettled), k, listing, shares, fee.Known?, proof, now).value,
             Funding.Spend(b.funds, batch.session, total, now).value);
  }

  lemma ClaimLater(b: Books, k: nat, now: int)
    requires Inv(b)
    ensures Later(b, Claim(b, k, now))
  {
    if k < |b.batches| {
      assert BatchOk(b.batches[k], k, b.grants, b.events);
    }
  }

  lemma MarkSubmittedLater(b: Books, k: nat, lease: nat)
    requires Inv(b)
    ensures Later(b, MarkSubmitted(b, k, lease))
  {
    if k < |b.batches| {
      assert BatchOk(b.batches[k], k, b.grants, b.events);
    }
  }

  lemma RetryLater(b: Books, k: nat, lease: nat, attempts: nat, submitted: bool, now: int)
    requires Inv(b)
    ensures Later(b, Retry(b, k, lease, attempts, submitted, now))
  {
    if k < |b.batches| {
      assert BatchOk(b.batches[k], k, b.grants, b.events);
    }
  }

  lemma OwnerLater(b: Books, op: Op, now: int)
    requires op.AddSession? || op.Administer? || op.AddGrant? || op.DoRevoke? || op.DoSettling? || op.Fund?
    ensures Later(b, Step(b, op, now))
  {}

  lemma LaterReflexive(b: Books)
    ensures Later(b, b)
  {}

  lemma ReleaseStepLater(b: Books, k: nat, failed: bool, now: int)
    requires Inv(b)
    ensures Later(b, Step(b, DoRelease(k, failed), now))
  {
    if k < |b.batches| && !IsTerminal(b.batches[k].status) && Release(b, k, failed, now).Ok? {
      ReleaseLater(b, k, failed, now);
    } else {
      assert Step(b, DoRelease(k, failed), now) == b;
      LaterReflexive(b);
    }
  }

  lemma FinalizeStepLater(b: Books, k: nat, listing: seq<nat>, fee: Fee, proof: nat, now: int)
    requires Inv(b)
    ensures Later(b, Step(b, DoFinalize(k, listing, fee, proof), now))
  {
    if IsListing(b.events, k, listing) && k < |b.batches| && b.batches[k].status != Succeeded
       && Finalize(b, k, listing, fee, proof, now).Ok?
    {
      FinalizeLater(b, k, listing, fee, proof, now);
    } else {
      assert Step(b, DoFinalize(k, listing, fee, proof), now) == b;
      LaterReflexive(b);
    }
  }

  lemma SubmitStepLater(b: Books, owner: nat, u: Usage, now: int)
    requires Inv(b)
    ensures Later(b, Step(b, DoSubmit(owner, u), now))
  {
    if Submit(b, owner, u, now).Ok? {
      SubmitLater(b, owner, u, now);
    } else {
      LaterReflexive(b);
    }
  }

  lemma StepLater(b: Books, op: Op, now: int)
    requires Inv(b)
    ensures Later(b, Step(b, op, now))
  {
    match op
    case DoSubmit(owner, u) => SubmitStepLater(b, owner, u, now);
    case DoClaim(k) => ClaimLater(b, k, now);
    case DoMarkSubmitted(k, lease) => MarkSubmittedLater(b, k, lease);
    case DoRetry(k, lease, attempts, submitted) => RetryLater(b, k, lease, attempts, submitted, now);
    case DoRelease(k, failed) => ReleaseStepLater(b, k, failed, now);
    case DoFinalize(k, listing, fee, proof) => FinalizeStepLater(b, k, listing, fee, proof, now);
    case _ => OwnerLater(b, op, now);
  }

  lemma LaterTransitive(b: Books, m: Books, t: Books)
    requires Later(b, m) && Later(m, t)
    ensures Later(b, t)
  {
    forall j | 0 <= j < |b.events| ensures EventPersists(b.events[j], t.events[j]) {
      assert EventPersists(b.events[j], m.events[j]) && EventPersists(m.events[j], t.events[j]);
    }
    forall k | 0 <= k < |b.batches| ensures BatchPersists(b.batches[k], t.batches[k]) {
      assert BatchPersists(b.batches[k], m.batches[k]) && BatchPersists(m.batches[k], t.batches[k]);
    }
    forall g | 0 <= g < |b.grants| ensures GrantPersists(b.grants[g], t.grants[g]) {
      assert GrantPersists(b.grants[g], m.grants[g]) && GrantPersists(m.grants[g], t.grants[g]);
    }
  }

  /** Over every run an event leaves "reserved" at most once and keeps the receipt it got; a batch's totals are
      frozen once it is closed, and the whole batch once it ended. */
  lemma {:induction false} RunLater(b: Books, ops: seq<(Op, int)>)
    requires Inv(b)
    ensures Later(b, Run(b, ops))
  {
    if ops != [] {
      var before := ops[..|ops| - 1];
      RunLater(b, before);
      RunKeeps(b, before);
      StepLater(Run(b, before), ops[|ops| - 1].0, ops[|ops| - 1].1);
      LaterTransitive(b, Run(b, before), Run(b, ops));
    }
  }

  // Batches.

  /** What the guards of finalizing find: a mismatch exactly on a batch that ended, else at most an unsafe counter. */
  lemma SettlementChecked(b: Books, k: nat, total: nat, count: nat)
    requires Inv(b) && k < |b.batches| && total == Tally(b.events, OpenIn(k)) && count == Tally(b.events, OneOpenIn(k))
    ensures b.batches[k].session < |b.sessions|
    ensures CheckSettlement(b, k, total, count)
            == if IsTerminal(b.batches[k].status) then Err(TotalMismatch)
               else if b.sessions[b.batches[k].session].spent + total <= MAX_SAFE then Ok(()) else Err(LegacyLimit)
    ensures !IsTerminal(b.batches[k].status) ==> total == b.batches[k].total > 0
  {
    OpenInBatch(b, k);
    OpenIsReserved(b, k);
    assert BatchOk(b.batches[k], k, b.grants, b.events);
  }

  /** Finalizing is its guards, then the funding spend, then the apportionment: issuing the receipts never fails. */
  lemma FinalizeOutcome(b: Books, k: nat, listing: seq<nat>, fee: Fee, proof: nat, now: int)
    requires Inv(b) && k < |b.batches| && b.batches[k].status != Succeeded && IsListing(b.events, k, listing)
    ensures b.batches[k].session < |b.sessions|
    ensures var batch, total := b.batches[k], Tally(b.events, OpenIn(k));
            var r := Finalize(b, k, listing, fee, proof, now);
            var spent, shares := Funding.Spend(b.funds, batch.session, total, now), FeeShares(fee, Usages(At(b.events, listing)));
            if IsTerminal(batch.status) then r == Err(TotalMismatch)
            else if b.sessions[batch.session].spent + total > MAX_SAFE then r == Err(LegacyLimit)
            else if spent.Err? then r == Err(Unfunded(spent.error))
            else if shares.Err? then r == Err(FeeInvalid)
            else r.Ok?
  {
    ListingTotals(b.events, k, listing);
    SettlementChecked(b, k, Tally(b.events, OpenIn(k)), |listing|);
    var shares := FeeShares(fee, Usages(At(b.events, listing)));
    if shares.Ok? {
      SettledEnds(b, k, listing, shares.value, fee.Known?, proof, now);
    }
  }

  /** The mismatch guard never fires on a live batch and always stops a failed or released one; the counter guards
      and the receipt conflict never fire. */
  lemma MismatchIffEnded(b: Books, k: nat, listing: seq<nat>, fee: Fee, proof: nat, now: int)
    requires Inv(b) && k < |b.batches| && IsListing(b.events, k, listing)
    ensures Finalize(b, k, listing, fee, proof, now) == Err(TotalMismatch)
            <==> b.batches[k].status == Failed || b.batches[k].status == Released
    ensures Finalize(b, k, listing, fee, proof, now) != Err(CountersInconsistent)
    ensures Finalize(b, k, listing, fee, proof, now) != Err(OwnerStateMissing)
    ensures Finalize(b, k, listing, fee, proof, now) != Err(ReceiptConflict)
  {
    if b.batches[k].status != Succeeded {
      FinalizeOutcome(b, k, listing, fee, proof, now);
    }
  }

  /** A release always commits. */
  lemma ReleaseAlwaysCommits(b: Books, k: nat, failed: bool, now: int)
    requires Inv(b)
    ensures Release(b, k, failed, now).Ok?
  {
    if k < |b.batches| {
      OpenIsReserved(b, k);
    }
  }

  /** The provider's fee can be shared out: it is not known, or it is a number whose every share has 256 bits. */
  predicate FeeFits(fee: Fee, amounts: seq<nat>) {
    match fee
    case Unknown => true
    case Malformed => false
    case Known(f) =>
      var shares := Shares(f, amounts);
      shares.Ok? && forall i :: 0 <= i < |shares.value| ==> shares.value[i] <= MAX_ATOMIC
  }

  /** What settling a batch needs besides a confirmation: a safe spent counter, funding that covers it, a fee that fits. */
  ghost predicate Settleable(b: Books, k: nat, listing: seq<nat>, fee: Fee)
    requires k < |b.batches| && forall i :: 0 <= i < |listing| ==> listing[i] < |b.events|
  {
    var batch := b.batches[k];
    && batch.session < |b.sessions| && b.sessions[batch.session].spent + batch.total <= MAX_SAFE
    && FundingInvariant.CanSpend(b.funds, batch.session, batch.total)
    && FeeFits(fee, Usages(At(b.events, listing)))
  }

  /** A live batch is finalized exactly when the session's spent counter stays a safe integer, its pass has no funding
      allocation or an active one that covers it on a source outside a shortfall, and the fee fits; a known fee of at
      most 256 bits always does. */
  lemma FinalizeCommitsIff(b: Books, k: nat, listing: seq<nat>, fee: Fee, proof: nat, now: int)
    requires Inv(b) && k < |b.batches| && !IsTerminal(b.batches[k].status) && IsListing(b.events, k, listing)
    ensures Finalize(b, k, listing, fee, proof, now).Ok? <==> Settleable(b, k, listing, fee)
    ensures fee.Known? && fee.amount <= MAX_ATOMIC ==> FeeFits(fee, Usages(At(b.events, listing)))
  {
    var amounts := Usages(At(b.events, listing));
    ListingTotals(b.events, k, listing);
    SettlementChecked(b, k, Tally(b.events, OpenIn(k)), |listing|);
    FinalizeOutcome(b, k, listing, fee, proof, now);
    FundingInvariant.SpendIffCanSpend(b.funds, b.batches[k].session, b.batches[k].total, now);
    assert FeeShares(fee, amounts).Ok? <==> FeeFits(fee, amounts);
    if fee.Known? && fee.amount <= MAX_ATOMIC {
      FeeApportioned(fee.amount, amounts);
    }
  }

  lemma FeeApportioned(f: nat, amounts: seq<nat>)
    requires Tally(amounts, Self()) > 0 && f <= MAX_ATOMIC
    ensures FeeShares(Known(f), amounts).Ok?
  {
    SharesExact(f, amounts);
    var shares := Shares(f, amounts).value;
    forall i | 0 <= i < |shares| ensures shares[i] <= MAX_ATOMIC {
      TallyMember(shares, i, Self());
    }
  }

  /** In every reachable ledger, of the two reasons to close a collecting batch before an event joins it, the count
      never applies. */
  lemma {:induction false} CountNeverCloses(ops: seq<(Op, int)>, u: Usage, k: nat)
    requires var b := Run(EMPTY, ops); u.grant < |b.grants| && FindAccepting(b.batches, u.grant) == Some(k)
    ensures var b := Run(EMPTY, ops);
            && b.batches[k].count < b.grants[u.grant].maxEvents
            && (MustClose(b.batches[k], b.grants[u.grant], u.amount)
                <==> b.batches[k].total + u.amount > b.grants[u.grant].maxBatch)
  {
    Reachable(ops);
    var b := Run(EMPTY, ops);
    assert BatchOk(b.batches[k], k, b.grants, b.events);
  }

  /** In every reachable ledger every batch is the sum and the number of its events, within its grant's batch limits;
      one that collects is strictly below every bound that closes it, and it is the grant's only one. */
  lemma {:induction false} BatchBounds(ops: seq<(Op, int)>, k: nat)
    requires k < |Run(EMPTY, ops).batches|
    ensures var b := Run(EMPTY, ops);
            var batch := b.batches[k];
            && batch.total == Tally(b.events, AmountIn(k)) && batch.count == Tally(b.events, OneIn(k))
            && batch.grant < |b.grants|
            && var g := b.grants[batch.grant];
               && batch.total <= g.maxBatch && batch.count <= g.maxEvents
               && (batch.accepting <==> batch.status == Collecting)
               && (batch.accepting ==> batch.total < g.threshold && batch.count < g.maxEvents)
               && (batch.accepting ==> forall j :: 0 <= j < |b.batches| && j != k && b.batches[j].accepting ==>
                                                     b.batches[j].grant != batch.grant)
  {
    Reachable(ops);
    var b := Run(EMPTY, ops);
    assert BatchOk(b.batches[k], k, b.grants, b.events);
  }

  // Receipts.

  function ReceiptAmountIn(k: nat): Event -> nat {
    (e: Event) => if e.receipt.Some? && e.receipt.value.settlement == k then e.receipt.value.amount else 0
  }

  function ReceiptFeeIn(k: nat): Event -> nat {
    (e: Event) => if e.receipt.Some? && e.receipt.value.settlement == k then e.receipt.value.fee else 0
  }

  /** The receipts of a batch add up to its total once it succeeded, and there are none before. */
  lemma ReceiptsCoverBatch(b: Books, k: nat)
    requires Inv(b) && k < |b.batches|
    ensures Tally(b.events, ReceiptAmountIn(k)) == if b.batches[k].status == Succeeded then b.batches[k].total else 0
  {
    BatchMoney(b, k);
    forall j | 0 <= j < |b.events| ensures ReceiptAmountIn(k)(b.events[j]) == SettledIn(k)(b.events[j]) {
      assert EventOk(b.events[j], b.batches);
    }
    TallyEqual(b.events, ReceiptAmountIn(k), b.events, SettledIn(k));
  }

  /** The shares a finalization issues receipts with add up to the fee. */
  lemma SettledShares(b: Books, k: nat, listing: seq<nat>, f: nat, proof: nat, now: int) returns (shares: seq<nat>)
    requires Inv(b) && k < |b.batches| && b.batches[k].status != Succeeded && IsListing(b.events, k, listing)
    requires Finalize(b, k, listing, Known(f), proof, now).Ok?
    ensures !IsTerminal(b.batches[k].status) && |shares| == |listing| && Tally(shares, Self()) == f
    ensures var issued := IssueReceipts(Conclude(b.events, k, EventSettled), k, listing, shares, true, proof, now);
            issued.Ok? && Finalize(b, k, listing, Known(f), proof, now).value.events == issued.value
  {
    shares := FinalizeRows(b, k, listing, Known(f), proof, now);
    ListingTotals(b.events, k, listing);
    SettlementChecked(b, k, Tally(b.events, OpenIn(k)), |listing|);
    SharesExact(f, Usages(At(b.events, listing)));
  }

  /** Finalizing a batch issues receipts whose fees add up to the provider's fee exactly. */
  lemma ReceiptFeesExact(b: Books, k: nat, listing: seq<nat>, f: nat, proof: nat, now: int)
    requires Inv(b) && k < |b.batches| && b.batches[k].status != Succeeded && IsListing(b.events, k, listing)
    requires Finalize(b, k, listing, Known(f), proof, now).Ok?
    ensures Tally(Finalize(b, k, listing, Known(f), proof, now).value.events, ReceiptFeeIn(k)) == f
  {
    var shares := SettledShares(b, k, listing, f, proof, now);
    IssuedFees(b, k, listing, shares, proof, now);
  }

  lemma IssuedFees(b: Books, k: nat, listing: seq<nat>, shares: seq<nat>, proof: nat, now: int)
    requires Inv(b) && k < |b.batches| && !IsTerminal(b.batches[k].status) && IsListing(b.events, k, listing)
    requires |shares| == |listing|
    ensures var r := IssueReceipts(Conclude(b.events, k, EventSettled), k, listing, shares, true, proof, now);
            r.Ok? && Tally(r.value, ReceiptFeeIn(k)) == Tally(shares, Self())
  {
    SettledEnds(b, k, listing, shares, true, proof, now);
    var concluded := Conclude(b.events, k, EventSettled);
    var later := IssueReceipts(concluded, k, listing, shares, true, proof, now).value;
    forall j | 0 <= j < |later| && j !in listing ensures ReceiptFeeIn(k)(later[j]) == 0 {
      assert EventOk(b.events[j], b.batches);
    }
    FeesOfListing(concluded, later, k, listing, shares, true, proof, now);
  }

  lemma FeesOfListing(before: seq<Event>, later: seq<Event>, k: nat, listing: seq<nat>, shares: seq<nat>, known: bool, proof: nat, now: int)
    requires Issued(before, later, k, listing, shares, known, proof, now) && Distinct(listing)
    requires forall j :: 0 <= j < |later| && j !in listing ==> ReceiptFeeIn(k)(later[j]) == 0
    ensures Tally(later, ReceiptFeeIn(k)) == Tally(shares, Self())
  {
    TallyOfListing(later, listing, ReceiptFeeIn(k));
    var rows := At(later, listing);
    forall n | 0 <= n < |rows| ensures ReceiptFeeIn(k)(rows[n]) == Self()(shares[n]) {
      assert later[listing[n]].receipt == Some(Receipt(k, before[listing[n]].usage.amount, shares[n], known, proof, now));
    }
    TallyEqual(rows, ReceiptFeeIn(k), shares, Self());
  }

  lemma StepEvents(b: Books, op: Op, now: int)
    ensures var events := Step(b, op, now).events;
            |events| == |b.events| || (|events| == |b.events| + 1 && events[|b.events|].receipt.None?)
  {
    if op.DoFinalize? && IsListing(b.events, op.k, op.listing) && op.k < |b.batches| {
      var r := Finalize(b, op.k, op.listing, op.fee, op.proof, now);
    }
  }

  lemma FeesStay(b: Books, op: Op, now: int, k: nat)
    requires Inv(b) && k < |b.batches| && IsTerminal(b.batches[k].status)
    ensures Tally(Step(b, op, now).events, ReceiptFeeIn(k)) == Tally(b.events, ReceiptFeeIn(k))
  {
    StepLater(b, op, now);
    StepKeeps(b, op, now);
    StepEvents(b, op, now);
    FeesLater(b, Step(b, op, now), k);
  }

  lemma FeeOfLaterEvent(e: Event, later: Event, batches: seq<Batch>, laterBatches: seq<Batch>, k: nat)
    requires EventOk(e, batches) && EventOk(later, laterBatches) && EventPersists(e, later)
    requires k < |batches| && IsTerminal(batches[k].status)
    ensures ReceiptFeeIn(k)(later) == ReceiptFeeIn(k)(e)
  {}

  lemma FeesLater(b: Books, m: Books, k: nat)
    requires Inv(b) && Inv(m) && Later(b, m) && k < |b.batches| && IsTerminal(b.batches[k].status)
    requires |m.events| == |b.events| || (|m.events| == |b.events| + 1 && m.events[|b.events|].receipt.None?)
    ensures Tally(m.events, ReceiptFeeIn(k)) == Tally(b.events, ReceiptFeeIn(k))
  {
    forall j | 0 <= j < |b.events| ensures ReceiptFeeIn(k)(m.events[j]) == ReceiptFeeIn(k)(b.events[j]) {
      assert EventPersists(b.events[j], m.events[j]);
      FeeOfLaterEvent(b.events[j], m.events[j], b.batches, m.batches, k);
    }
    OneMore(b.events, m.events, ReceiptFeeIn(k));
  }

  lemma OneMore<T>(xs: seq<T>, ys: seq<T>, w: T -> nat)
    requires |ys| == |xs| || (|ys| == |xs| + 1 && w(ys[|xs|]) == 0)
    requires forall i :: 0 <= i < |xs| ==> w(ys[i]) == w(xs[i])
    ensures Tally(ys, w) == Tally(xs, w)
  {
    var n := |xs|;
    TallyEqual(ys[..n], w, xs, w);
    if |ys| > n {
      assert ys == ys[..n] + [ys[n]];
      TallyAppend(ys[..n], ys[n], w);
    } else {
      assert ys == ys[..n];
    }
  }

  /** What the receipts of an ended batch add up to never changes again. */
  lemma {:induction false} RunFeesStay(b: Books, ops: seq<(Op, int)>, k: nat)
    requires Inv(b) && k < |b.batches| && IsTerminal(b.batches[k].status)
    ensures Tally(Run(b, ops).events, ReceiptFeeIn(k)) == Tally(b.events, ReceiptFeeIn(k))
  {
    if ops != [] {
      var before := ops[..|ops| - 1];
      RunFeesStay(b, before, k);
      RunKeeps(b, before);
      RunLater(b, before);
      assert BatchPersists(b.batches[k], Run(b, before).batches[k]);
      FeesStay(Run(b, before), ops[|ops| - 1].0, ops[|ops| - 1].1, k);
    }
  }

  // Replay.

  lemma FindEventUnique(events: seq<Event>, j: nat)
    requires j < |events| && UniqueKeys(events)
    ensures FindEvent(events, events[j].usage.app, events[j].usage.externalId) == Some(j)
  {}

  /** Submitting again what is stored returns it; anything else under its external id conflicts. */
  lemma SubmitStored(t: Books, j: nat, again: nat, other: Usage, later: int)
    requires j < |t.events| && UniqueKeys(t.events) && 0 < t.events[j].usage.amount <= MAX_SAFE
    ensures var u := t.events[j].usage;
            && Submit(t, again, u, later) == Ok((t, j))
            && (other != u && other.app == u.app && other.externalId == u.externalId && 0 < other.amount <= MAX_SAFE ==>
                  Submit(t, again, other, later) == Err(IdempotencyConflict))
  {
    FindEventUnique(t.events, j);
  }

  lemma SubmittedIsStored(b: Books, owner: nat, u: Usage, now: int)
    requires Inv(b) && Submit(b, owner, u, now).Ok?
    ensures var (m, j) := Submit(b, owner, u, now).value;
            Inv(m) && j < |m.events| && m.events[j].usage == u && 0 < u.amount <= MAX_SAFE
  {
    SubmitKeeps(b, owner, u, now);
  }

  /** Once accepted, a usage event is replayed for ever: after any run, submitting it again changes nothing and
      returns the same event, submitting anything else under its external id conflicts, and no second event has it. */
  lemma ReplayForever(b: Books, owner: nat, u: Usage, now: int, ops: seq<(Op, int)>, again: nat, other: Usage, later: int)
    requires Inv(b) && Submit(b, owner, u, now).Ok?
    ensures var (m, j) := Submit(b, owner, u, now).value;
            var t := Run(m, ops);
            && j < |t.events| && t.events[j].usage == u
            && Submit(t, again, u, later) == Ok((t, j))
            && (other != u && other.app == u.app && other.externalId == u.externalId && 0 < other.amount <= MAX_SAFE ==>
                  Submit(t, again, other, later) == Err(IdempotencyConflict))
            && (forall i :: 0 <= i < |t.events| && i != j ==>
                  !(t.events[i].usage.app == u.app && t.events[i].usage.externalId == u.externalId))
  {
    SubmittedIsStored(b, owner, u, now);
    var (m, j) := Submit(b, owner, u, now).value;
    RunKeeps(m, ops);
    RunLater(m, ops);
    assert EventPersists(m.events[j], Run(m, ops).events[j]);
    SubmitStored(Run(m, ops), j, again, other, later);
  }

  /** A grant that is no longer active accepts nothing new, after any run: what still succeeds is a replay. */
  lemma InactiveAcceptsNothing(b: Books, g: nat, ops: seq<(Op, int)>, owner: nat, u: Usage, now: int)
    requires Inv(b) && g < |b.grants| && b.grants[g].status != Active && u.grant == g
    ensures var t := Run(b, ops);
            Submit(t, owner, u, now).Ok? ==>
              Submit(t, owner, u, now).value.0 == t && FindEvent(t.events, u.app, u.externalId).Some?
  {
    RunLater(b, ops);
    assert GrantPersists(b.grants[g], Run(b, ops).grants[g]);
  }

  // Rates.

  function AcceptedBetween(g: nat, lo: int, hi: int): Event -> nat {
    (e: Event) => if e.usage.grant == g && lo <= e.acceptedAt <= hi then 1 else 0
  }

  lemma MultiplesOrdered(w: nat, p: int, q: int)
    requires p >= q
    ensures w * p >= w * q
  {
    assert w * (p - q) == w * p - w * q;
  }

  lemma MultiplesApart(w: nat, p: int, q: int)
    requires w * p < w * q
    ensures p < q
  {
    if p >= q {
      MultiplesOrdered(w, p, q);
    }
  }

  /** A time no more than one window after `lo` falls in the window of `lo` or in the next one. */
  lemma TwoWindows(lo: int, t: int, width: nat)
    requires width >= 1 && lo <= t <= lo + width * 1000
    ensures WindowStart(t, width) == WindowStart(lo, width) || WindowStart(t, width) == WindowStart(lo, width) + width * 1000
  {
    var w := width * 1000;
    var p, q := t / w, lo / w;
    assert w * p <= t < w * p + w && w * q <= lo < w * q + w;
    assert w * (p + 1) == w * p + w && w * (q + 2) == w * q + w + w;
    MultiplesApart(w, q, p + 1);
    MultiplesApart(w, p, q + 2);
    assert (q + 1) * w == q * w + w;
  }

  lemma {:induction false} CoveredByTwo<T>(xs: seq<T>, u: T -> nat, v: T -> nat, w: T -> nat)
    requires forall i :: 0 <= i < |xs| ==> u(xs[i]) <= v(xs[i]) + w(xs[i])
    ensures Tally(xs, u) <= Tally(xs, v) + Tally(xs, w)
  {
    if xs != [] {
      CoveredByTwo(xs[..|xs| - 1], u, v, w);
    }
  }

  /** Any stretch of time no longer than the rate window admits at most twice the rate. */
  lemma RateBound(b: Books, g: nat, lo: int, hi: int)
    requires Inv(b) && g < |b.grants| && hi <= lo + b.grants[g].windowSeconds * 1000
    ensures Tally(b.events, AcceptedBetween(g, lo, hi)) <= 2 * b.grants[g].rateCount
  {
    var width := b.grants[g].windowSeconds;
    assert GrantOk(b.grants[g], g, b.events, |b.sessions|);
    var first := WindowStart(lo, width);
    var second := first + width * 1000;
    forall j | 0 <= j < |b.events|
      ensures AcceptedBetween(g, lo, hi)(b.events[j])
              <= AdmittedIn(g, width, first)(b.events[j]) + AdmittedIn(g, width, second)(b.events[j])
    {
      var e := b.events[j];
      if lo <= e.acceptedAt <= hi {
        TwoWindows(lo, e.acceptedAt, width);
      }
    }
    CoveredByTwo(b.events, AcceptedBetween(g, lo, hi), AdmittedIn(g, width, first), AdmittedIn(g, width, second));
    assert WindowOk(b, g, first) && WindowOk(b, g, second);
  }
}
