/** When the worker gives the money of a submitted batch back, although the documentation says a submitted batch is not
    discarded (docs/metered-payments.md, Revocation And Expiry): exactly when it does, and a run in which the payment
    was confirmed. */
module MeteredGiveBack {
  import opened Wrappers
  import opened Money
  import opened Tallies
  import opened Receipts
  import opened Metered
  import opened MeteredInvariant
  import opened MeteredSteps
  import opened MeteredTheorems
  import opened MeteredWorker
  import Funding
  import FundingInvariant

  predicate LastChance(batch: Batch) {
    batch.attempts >= MAX_ATTEMPTS
  }

  /** A confirmed batch that cannot be settled. One that another process already ended is in the same place: its totals
      no longer match, unless it succeeded. */
  ghost predicate Unsettleable(b: Books, k: nat, fee: Fee)
    requires k < |b.batches|
  {
    if IsTerminal(b.batches[k].status) then b.batches[k].status != Succeeded
    else !Settleable(b, k, Listing(b.events, k), fee)
  }

  /** The spent counter would leave the safe integers, which no retry can mend. */
  ghost predicate Hopeless(b: Books, k: nat)
    requires k < |b.batches|
  {
    && !IsTerminal(b.batches[k].status) && b.batches[k].session < |b.sessions|
    && b.sessions[b.batches[k].session].spent + b.batches[k].total > MAX_SAFE
  }

  /** The answers after which a batch is given back. */
  ghost predicate GivesBack(b: Books, k: nat, batch: Batch, reply: Reply)
    requires k < |b.batches|
  {
    match reply
    case Refused => true
    case Unsettled => false
    case Threw(retryable) => !retryable || LastChance(batch)
    case Confirmed(fee, _) => Unsettleable(b, k, fee) && (Hopeless(b, k) || LastChance(batch))
  }

  lemma SettleReturnedIff(b: Books, k: nat, batch: Batch, lease: nat, fee: Fee, proof: nat, at: int)
    requires Inv(b) && k < |b.batches|
    ensures Settle(b, k, batch, lease, fee, proof, at).1 == Returned
            <==> Unsettleable(b, k, fee) && (Hopeless(b, k) || LastChance(batch))
  {
    var listing := Listing(b.events, k);
    ListingIsListing(b.events, k);
    var r := Finalize(b, k, listing, fee, proof, at);
    if b.batches[k].status != Succeeded {
      FinalizeOutcome(b, k, listing, fee, proof, at);
      OpenInBatch(b, k);
      if !IsTerminal(b.batches[k].status) {
        FinalizeCommitsIff(b, k, listing, fee, proof, at);
      }
    }
    if r.Err? {
      OnErrorGoesOn(b, k, batch, lease, Retryable(r.error), at);
    }
  }

  /** An answer ends in giving a batch back exactly when it is a refusal, a failure not worth retrying or on the last
      attempt, or a confirmation that cannot be settled, for good or on the last attempt. */
  lemma ReturnedIff(b: Books, k: nat, batch: Batch, lease: nat, reply: Reply, submitted: bool, at: int)
    requires Inv(b) && k < |b.batches|
    ensures React(b, k, batch, lease, reply, submitted, at).1 == Returned <==> GivesBack(b, k, batch, reply)
  {
    match reply
    case Confirmed(fee, proof) => SettleReturnedIff(b, k, batch, lease, fee, proof, at);
    case Unsettled =>
    case Refused => ReleaseAlwaysCommits(b, k, true, at);
    case Threw(retryable) => OnErrorGoesOn(b, k, batch, lease, retryable, at);
  }

  /** When the execution of a batch whose payment was not found ends in giving it back: the request could not be
      prepared, for good or on the last attempt, or the answer gives it back. */
  ghost predicate ExecutionGivesBack(b: Books, k: nat, batch: Batch, lease: nat, v: Visit) {
    var prepared := Run(b, v.whilePreparing);
    if v.prepared.Err? then !v.prepared.error || LastChance(batch)
    else
      && Holds(prepared, k, lease) && k < |Underway(prepared, k, lease, v).batches|
      && GivesBack(Underway(prepared, k, lease, v), k, batch, v.reply)
  }

  lemma UnderwayLater(b: Books, k: nat, lease: nat, v: Visit)
    requires Inv(b) && Holds(b, k, lease)
    ensures k < |Underway(b, k, lease, v).batches|
  {
    var trace := UnderwayIsRun(b, k, lease, v);
    RunLater(b, trace);
  }

  lemma ExecutionReturnedIff(b: Books, k: nat, batch: Batch, lease: nat, v: Visit)
    requires Inv(b)
    ensures Execute(b, k, batch, lease, v).1 == Returned <==> ExecutionGivesBack(b, k, batch, lease, v)
  {
    var prepared := Run(b, v.whilePreparing);
    RunKeeps(b, v.whilePreparing);
    if v.prepared.Err? {
      OnErrorGoesOn(prepared, k, batch, lease, v.prepared.error, v.at);
    } else if Holds(prepared, k, lease) {
      UnderwayKeeps(prepared, k, lease, v);
      UnderwayLater(prepared, k, lease, v);
      ReturnedIff(Underway(prepared, k, lease, v), k, batch, lease, v.reply, v.marks, v.at);
    }
  }

  /** When a visit to a submitted batch gives it back: by the answer of the lookup if there is one, and otherwise by
      how paying it once more ends. */
  ghost predicate VisitGivesBack(b: Books, k: nat, batch: Batch, lease: nat, v: Visit) {
    var looked := Run(b, v.whileLooking);
    && k < |looked.batches|
    && if v.lookup.Some? then GivesBack(looked, k, batch, v.lookup.value)
       else ExecutionGivesBack(looked, k, batch, lease, v)
  }

  /** A visit gives a submitted batch back exactly then, whatever other processes do meanwhile. */
  lemma SubmittedReturnedIff(b: Books, k: nat, v: Visit, now: int)
    requires Inv(b) && k < |b.batches| && b.batches[k].submitted
    ensures var claimed := Claim(b, k, now);
            VisitOnce(b, k, v, now).1 == Returned <==> VisitGivesBack(claimed, k, claimed.batches[k], b.nextLease, v)
  {
    ClaimKeeps(b, k, now);
    var claimed := Claim(b, k, now);
    var batch := claimed.batches[k];
    assert BatchOk(batch, k, claimed.grants, claimed.events);
    var looked := Run(claimed, v.whileLooking);
    RunKeeps(claimed, v.whileLooking);
    RunLater(claimed, v.whileLooking);
    if v.lookup.Some? {
      ReturnedIff(looked, k, batch, b.nextLease, v.lookup.value, true, v.at);
    } else {
      ExecutionReturnedIff(looked, k, batch, b.nextLease, v);
    }
  }

  /** Giving a live batch back ends it as failed: nothing of it was spent, and all of it left its grant's reservations. */
  lemma ReturnedIsFailed(b: Books, k: nat, batch: Batch, lease: nat, reply: Reply, submitted: bool, at: int)
    requires Inv(b) && k < |b.batches| && !IsTerminal(b.batches[k].status)
    requires React(b, k, batch, lease, reply, submitted, at).1 == Returned
    ensures var m := React(b, k, batch, lease, reply, submitted, at).0;
            var g := b.batches[k].grant;
            && g < |b.grants| == |m.grants| && |m.batches| == |b.batches| && m.batches[k].status == BatchStatus.Failed
            && m.grants[g].spent == b.grants[g].spent
            && m.grants[g].reserved + b.batches[k].total == b.grants[g].reserved
  {
    ReleaseAlwaysCommits(b, k, true, at);
    OpenInBatch(b, k);
    var row, g, s, events := ReleaseRows(b, k, true, at);
    assert React(b, k, batch, lease, reply, submitted, at).0 == Release(b, k, true, at).value;
  }

  // The run.

  /** A pass of ten units, funded by a proof of ten, with one grant and one usage event of one unit. */
  function Opening(): seq<(Op, int)> {
    [(AddSession(Session(0, Open, Some(0), Some(0), true, true, None, 10, 0, 0)), 0)]
    + [(AddGrant(Grant(0, 0, 0, GrantStatus.Active, 1, 10, 0, 0, 1, 1, 1, 1, 1, 0, 100), true), 0)]
    + [(Fund(Funding.AddProof(10, 0)), 0)]
    + [(Fund(Funding.DoAllocate(0, 0, 10)), 0)]
    + [(DoSubmit(0, Unit()), 0)]
  }

  function Unit(): Usage {
    Usage(0, 0, "event", 1, "kind", "policy")
  }

  function Funds(): Funding.Ledger {
    Promised(10, 0)
  }

  /** The ledger of the run: only the batch, the settling mark and the leases differ along it. */
  function At(batch: Batch, status: EventStatus, nextLease: nat): Books {
    Books(
      [Session(0, Open, Some(0), Some(0), true, true, None, 10, 0, 1)],
      [Grant(0, 0, 0, GrantStatus.Active, 1, 10, 1, 0, 1, 1, 1, 1, 1, 0, 100)],
      [batch],
      [Event(Unit(), 0, status, 0, None)],
      map[(0, 0) := 1],
      Funds(),
      nextLease)
  }

  /** The batch after it was tried `n` times: submitted, and put back as uncertain. */
  function Tried(n: nat, runAfter: int, leaseExpires: int): Batch {
    Batch(0, 0, false, Uncertain, 1, 1, runAfter, n, None, Some(leaseExpires), true)
  }

  function FirstBatch(): Batch {
    Batch(0, 0, false, Queued, 1, 1, 0, 0, None, None, false)
  }

  lemma RunSnoc(b: Books, ops: seq<(Op, int)>, op: Op, now: int)
    ensures Run(b, ops + [(op, now)]) == Step(Run(b, ops), op, now)
  {
    assert (ops + [(op, now)])[..|ops|] == ops;
  }

  lemma SubmitFirst(b: Books)
    requires b == At(FirstBatch(), EventReserved, 0).(
                  sessions := [Session(0, Open, Some(0), Some(0), true, true, None, 10, 0, 0)],
                  grants := [Grant(0, 0, 0, GrantStatus.Active, 1, 10, 0, 0, 1, 1, 1, 1, 1, 0, 100)],
                  batches := [], events := [], windows := map[])
    ensures Step(b, DoSubmit(0, Unit()), 0) == At(FirstBatch(), EventReserved, 0)
  {
    assert WindowStart(0, 1) == 0;
    assert FindEvent(b.events, 0, "event").None? && FindAccepting(b.batches, 0).None?;
    assert Admit(b, 0, Unit(), 0).Ok?;
    var room := MakeRoom(b.batches, Unit(), b.grants[0], 0);
    assert room.0 == [NewBatch(Unit(), b.grants[0], 0)] && room.1 == 0;
  }

  /** One proved source, all of it promised to one pass. */
  function Promised(n: nat, now: int): Funding.Ledger {
    Funding.Ledger(
      [Funding.Source(Funding.Secured, Funding.FullyAllocated, n, n, n, n, 0, 0, 0, true, true, Some(now + Funding.FRESHNESS_MS), None)],
      [Funding.Allocation(0, 0, Funding.Active, n, 0, 0, n)])
  }

  lemma FundFirst(n: nat, now: int)
    requires 0 < n <= MAX_SAFE
    ensures Funding.Step(Funding.Step(Funding.EMPTY, Funding.AddProof(n, now), now), Funding.DoAllocate(0, 0, n), now) == Promised(n, now)
  {
    var proved := Funding.Step(Funding.EMPTY, Funding.AddProof(n, now), now);
    assert Funding.StoreSource(Funding.Promise(proved.sources[0], n), now) == Ok(Promised(n, now).sources[0]);
  }

  lemma OpeningLeads()
    ensures Run(EMPTY, Opening()) == At(FirstBatch(), EventReserved, 0)
  {
    var session := Session(0, Open, Some(0), Some(0), true, true, None, 10, 0, 0);
    var grant := Grant(0, 0, 0, GrantStatus.Active, 1, 10, 0, 0, 1, 1, 1, 1, 1, 0, 100);
    var first := [(AddSession(session), 0)];
    var second := first + [(AddGrant(grant, true), 0)];
    var third := second + [(Fund(Funding.AddProof(10, 0)), 0)];
    var fourth := third + [(Fund(Funding.DoAllocate(0, 0, 10)), 0)];
    RunOne(EMPTY, AddSession(session), 0);
    RunSnoc(EMPTY, first, AddGrant(grant, true), 0);
    RunSnoc(EMPTY, second, Fund(Funding.AddProof(10, 0)), 0);
    RunSnoc(EMPTY, third, Fund(Funding.DoAllocate(0, 0, 10)), 0);
    RunSnoc(EMPTY, fourth, DoSubmit(0, Unit()), 0);
    FundFirst(10, 0);
    SubmitFirst(Run(EMPTY, fourth));
  }

  /** The first attempt submits the payment and does not learn its outcome. */
  function FirstTry(): seq<(Op, int)> {
    [(DoClaim(0), 0)] + [(DoSettling(0), 0)] + [(DoMarkSubmitted(0, 0), 0)] + [(DoRetry(0, 0, 1, true), 0)]
  }

  function Busy(submitted: bool): Batch {
    Batch(0, 0, false, Processing, 1, 1, 0, 1, Some(0), Some(BATCH_LEASE_MS), submitted)
  }

  lemma FirstClaimLeads()
    ensures Run(At(FirstBatch(), EventReserved, 0), [(DoClaim(0), 0)] + [(DoSettling(0), 0)])
            == At(Busy(false), EventSettling, 1)
  {
    var b := At(FirstBatch(), EventReserved, 0);
    RunOne(b, DoClaim(0), 0);
    RunSnoc(b, [(DoClaim(0), 0)], DoSettling(0), 0);
    assert MarkSettling(b.events, 0) == [Event(Unit(), 0, EventSettling, 0, None)];
  }

  lemma FirstTryLeads()
    ensures Run(At(FirstBatch(), EventReserved, 0), FirstTry()) == At(Tried(1, 1000, 0), EventSettling, 1)
  {
    var b := At(FirstBatch(), EventReserved, 0);
    var begun := [(DoClaim(0), 0)] + [(DoSettling(0), 0)];
    FirstClaimLeads();
    RunSnoc(b, begun, DoMarkSubmitted(0, 0), 0);
    RunSnoc(b, begun + [(DoMarkSubmitted(0, 0), 0)], DoRetry(0, 0, 1, true), 0);
    assert Step(At(Busy(false), EventSettling, 1), DoMarkSubmitted(0, 0), 0) == At(Busy(true), EventSettling, 1);
  }

  /** A later attempt finds the payment still pending. */
  function Again(n: nat, now: int): seq<(Op, int)> {
    [(DoClaim(0), now)] + [(DoRetry(0, n, n + 1, true), now)]
  }

  lemma AgainLeads(n: nat, runAfter: int, leaseExpires: int, now: int)
    requires runAfter <= now && leaseExpires <= now
    ensures Run(At(Tried(n, runAfter, leaseExpires), EventSettling, n), Again(n, now))
            == At(Tried(n + 1, now + Backoff(n + 1), now), EventSettling, n + 1)
  {
    var b := At(Tried(n, runAfter, leaseExpires), EventSettling, n);
    RunOne(b, DoClaim(0), now);
    RunSnoc(b, [(DoClaim(0), now)], DoRetry(0, n, n + 1, true), now);
  }

  function Early(): seq<(Op, int)> {
    Opening() + FirstTry()
  }

  function History(): seq<(Op, int)> {
    Early() + Again(1, 100_000) + Again(2, 200_000) + Again(3, 300_000)
  }

  lemma EarlyLeads()
    ensures Run(EMPTY, Early()) == At(Tried(1, 1000, 0), EventSettling, 1)
  {
    OpeningLeads();
    FirstTryLeads();
    RunThenRun(EMPTY, Opening(), FirstTry());
  }

  lemma AgainAfter(b: Books, ops: seq<(Op, int)>, n: nat, runAfter: int, leaseExpires: int, now: int)
    requires Run(b, ops) == At(Tried(n, runAfter, leaseExpires), EventSettling, n)
    requires runAfter <= now && leaseExpires <= now
    ensures Run(b, ops + Again(n, now)) == At(Tried(n + 1, now + Backoff(n + 1), now), EventSettling, n + 1)
  {
    RunThenRun(b, ops, Again(n, now));
    AgainLeads(n, runAfter, leaseExpires, now);
  }

  lemma HistoryLeads()
    ensures Run(EMPTY, History()) == At(Tried(4, 308_000, 300_000), EventSettling, 4)
  {
    EarlyLeads();
    AgainAfter(EMPTY, Early(), 1, 1000, 0, 100_000);
    AgainAfter(EMPTY, Early() + Again(1, 100_000), 2, 102_000, 100_000, 200_000);
    AgainAfter(EMPTY, Early() + Again(1, 100_000) + Again(2, 200_000), 3, 204_000, 200_000, 300_000);
  }

  /** The fifth visit: while the worker looks the payment up, the network is seen to hold nothing for the pass; the
      lookup then confirms the payment. */
  function FinalVisit(): Visit {
    Visit(Some(Confirmed(Known(0), 0)), [(Fund(Funding.SeeSecured(0, 0, 400_000)), 400_000)], Ok(()), [], false, Unsettled, [],
          400_000)
  }

  lemma FundsEmptied(n: nat, since: int, now: int)
    requires 0 < n
    ensures !FundingInvariant.CanSpend(Funding.Step(Promised(n, since), Funding.SeeSecured(0, 0, now), now), 0, 1)
  {
    var l := Funding.Step(Promised(n, since), Funding.SeeSecured(0, 0, now), now);
    assert Funding.FindAllocation(l.allocations, 0) == Some(0);
  }

  /** A visit to a submitted batch reacts to what the lookup found. */
  lemma VisitLooksUp(b: Books, k: nat, v: Visit, now: int)
    requires Inv(b) && k < |b.batches| && b.batches[k].submitted && v.lookup.Some?
    ensures var claimed := Claim(b, k, now);
            VisitOnce(b, k, v, now)
            == React(Run(claimed, v.whileLooking), k, claimed.batches[k], b.nextLease, v.lookup.value, true, v.at)
  {
    ClaimKeeps(b, k, now);
    var claimed := Claim(b, k, now);
    assert BatchOk(claimed.batches[k], k, claimed.grants, claimed.events);
  }

  /** A confirmation that cannot be settled for want of funding on the last attempt. */
  lemma UnfundedReturns(b: Books, k: nat, batch: Batch, lease: nat, reply: Reply, at: int)
    requires Inv(b) && k < |b.batches| && !IsTerminal(b.batches[k].status) && LastChance(batch) && reply.Confirmed?
    requires !FundingInvariant.CanSpend(b.funds, b.batches[k].session, b.batches[k].total)
    ensures var (m, outcome) := React(b, k, batch, lease, reply, true, at);
            var g := b.batches[k].grant;
            && outcome == Returned
            && g < |b.grants| == |m.grants| && |m.batches| == |b.batches| && m.batches[k].status == BatchStatus.Failed
            && m.grants[g].spent == b.grants[g].spent
            && m.grants[g].reserved + b.batches[k].total == b.grants[g].reserved
  {
    ReturnedIff(b, k, batch, lease, reply, true, at);
    ReturnedIsFailed(b, k, batch, lease, reply, true, at);
  }

  lemma FundAlone(b: Books, op: Funding.Op, now: int)
    ensures Run(b, [(Fund(op), now)]) == b.(funds := Funding.Step(b.funds, op, now))
  {
    RunOne(b, Fund(op), now);
  }

  lemma Unfunded(claimed: Books, k: nat, n: nat, since: int, now: int)
    requires Inv(claimed) && k < |claimed.batches| && 0 < n && claimed.funds == Promised(n, since)
    requires claimed.batches[k].session == 0 && claimed.batches[k].total == 1
    ensures var looked := Run(claimed, [(Fund(Funding.SeeSecured(0, 0, now)), now)]);
            && Inv(looked) && looked.grants == claimed.grants && looked.batches == claimed.batches
            && !FundingInvariant.CanSpend(looked.funds, claimed.batches[k].session, claimed.batches[k].total)
  {
    RunKeeps(claimed, [(Fund(Funding.SeeSecured(0, 0, now)), now)]);
    FundAlone(claimed, Funding.SeeSecured(0, 0, now), now);
    FundsEmptied(n, since, now);
  }

  lemma LastClaim(b: Books)
    requires |b.batches| == 1 && Claimable(b.batches[0], 400_000) && b.batches[0].attempts == 4
    ensures var claimed := Claim(b, 0, 400_000);
            && |claimed.batches| == 1 && claimed.grants == b.grants && claimed.funds == b.funds
            && LastChance(claimed.batches[0]) && !IsTerminal(claimed.batches[0].status)
            && claimed.batches[0].session == b.batches[0].session && claimed.batches[0].total == b.batches[0].total
  {}

  lemma FinalVisitReturns(b: Books)
    requires Inv(b) && |b.batches| == 1 && |b.grants| == 1 && Claimable(b.batches[0], 400_000)
    requires b.batches[0].submitted && b.batches[0].attempts == 4 && b.batches[0].session == 0 && b.batches[0].total == 1
    requires b.funds == Funds() && b.grants[0].reserved == 1 && b.grants[0].spent == 0
    ensures var (m, outcome) := VisitOnce(b, 0, FinalVisit(), 400_000);
            && outcome == Returned
            && |m.batches| == 1 && m.batches[0].status == BatchStatus.Failed
            && |m.grants| == 1 && m.grants[0].reserved == 0 && m.grants[0].spent == 0
  {
    var v := FinalVisit();
    var claimed := Claim(b, 0, 400_000);
    VisitLooksUp(b, 0, v, 400_000);
    ClaimKeeps(b, 0, 400_000);
    LastClaim(b);
    Unfunded(claimed, 0, 10, 0, 400_000);
    assert BatchOk(claimed.batches[0], 0, claimed.grants, claimed.events);
    UnfundedReturns(Run(claimed, v.whileLooking), 0, claimed.batches[0], b.nextLease, v.lookup.value, 400_000);
  }

  lemma HistoryReady()
    ensures var b := Run(EMPTY, History());
            && |b.batches| == 1 && |b.grants| == 1 && Claimable(b.batches[0], 400_000)
            && b.batches[0].submitted && b.batches[0].attempts == 4 && b.batches[0].session == 0 && b.batches[0].total == 1
            && b.funds == Funds() && b.grants[0].reserved == 1 && b.grants[0].spent == 0
            && !IsTerminal(b.batches[0].status)
  {
    HistoryLeads();
  }

  /** The documented promise fails. A run from the empty ledger submits a payment and finds it pending until the last
      attempt; the provider then confirms it while the funding source is in a shortfall, which any earlier attempt
      would have retried; and the batch ends failed with its money given back. */
  lemma PaidYetReturned()
    ensures var b := Run(EMPTY, History());
            && |b.batches| == 1 && b.batches[0].submitted && !IsTerminal(b.batches[0].status)
            && Earliest(b.batches, 400_000) == Some(0) && FinalVisit().lookup.value.Confirmed?
            && var (m, outcome) := VisitOnce(b, 0, FinalVisit(), 400_000);
               && outcome == Returned
               && |m.batches| == 1 && m.batches[0].status == BatchStatus.Failed
               && |m.grants| == 1 && m.grants[0].reserved == 0 && m.grants[0].spent == 0
  {
    HistoryReady();
    Reachable(History());
    FinalVisitReturns(Run(EMPTY, History()));
  }
}
