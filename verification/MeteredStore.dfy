/** The stored metered collections, updated in place by each transaction and by the payment worker's loop; a
    transaction that throws leaves them as they were. */
module MeteredStores {
  import opened Wrappers
  import opened Money
  import opened Tallies
  import opened Receipts
  import opened Metered
  import opened MeteredInvariant
  import opened MeteredSteps
  import opened MeteredWorker
  import MeteredTheorems
  import Funding

  datatype WorkerResult = WorkerResult(claimed: nat, succeeded: nat, pending: nat, retried: nat, released: nat, skipped: nat)

  function Is(o: Outcome): Outcome -> nat {
    (x: Outcome) => if x == o then 1 else 0
  }

  /** A result that counts every visit under its outcome. */
  ghost predicate Counts(r: WorkerResult, outcomes: seq<Outcome>) {
    && r.claimed == |outcomes|
    && r.succeeded == Tally(outcomes, Is(Settled)) && r.pending == Tally(outcomes, Is(StillPending))
    && r.retried == Tally(outcomes, Is(Rescheduled)) && r.released == Tally(outcomes, Is(Returned))
    && r.skipped == Tally(outcomes, Is(LeaseLost))
  }

  /** If no visit stopped the worker, the claimed batches are the sum of the other counters. */
  lemma {:induction false} CountsAddUp(r: WorkerResult, outcomes: seq<Outcome>)
    requires Counts(r, outcomes) && Tally(outcomes, Is(Stopped)) == 0
    ensures r.claimed == r.succeeded + r.pending + r.retried + r.released + r.skipped
  {
    OutcomesAddUp(outcomes);
  }

  lemma {:induction false} OutcomesAddUp(outcomes: seq<Outcome>)
    ensures |outcomes| == Tally(outcomes, Is(Settled)) + Tally(outcomes, Is(StillPending)) + Tally(outcomes, Is(Rescheduled))
                          + Tally(outcomes, Is(Returned)) + Tally(outcomes, Is(LeaseLost)) + Tally(outcomes, Is(Stopped))
  {
    if outcomes != [] {
      OutcomesAddUp(outcomes[..|outcomes| - 1]);
    }
  }

  function CountOne(r: WorkerResult, o: Outcome): WorkerResult {
    match o
    case Settled => r.(claimed := r.claimed + 1, succeeded := r.succeeded + 1)
    case StillPending => r.(claimed := r.claimed + 1, pending := r.pending + 1)
    case Rescheduled => r.(claimed := r.claimed + 1, retried := r.retried + 1)
    case Returned => r.(claimed := r.claimed + 1, released := r.released + 1)
    case LeaseLost => r.(claimed := r.claimed + 1, skipped := r.skipped + 1)
    case Stopped => r.(claimed := r.claimed + 1)
  }

  lemma CountOneMore(r: WorkerResult, outcomes: seq<Outcome>, o: Outcome)
    requires Counts(r, outcomes)
    ensures Counts(CountOne(r, o), outcomes + [o])
    ensures Tally(outcomes + [o], Is(Stopped)) == Tally(outcomes, Is(Stopped)) + if o == Stopped then 1 else 0
  {
    TallyAppend(outcomes, o, Is(Stopped));
    TallyAppend(outcomes, o, Is(Settled));
    TallyAppend(outcomes, o, Is(StillPending));
    TallyAppend(outcomes, o, Is(Rescheduled));
    TallyAppend(outcomes, o, Is(Returned));
    TallyAppend(outcomes, o, Is(LeaseLost));
  }

  /** The whole loop is what was done and then the loop over the remaining visits. */
  ghost predicate Continues(first: Books, visits: seq<Visit>, b: Books, rest: seq<Visit>, done: seq<Outcome>, now: int) {
    Work(first, visits, now).0 == Work(b, rest, now).0 && Work(first, visits, now).1 == done + Work(b, rest, now).1
  }

  lemma ContinuesAtFirst(b: Books, visits: seq<Visit>, now: int)
    ensures Continues(b, visits, b, visits[0..], [], now)
  {
    assert visits[0..] == visits;
    assert [] + Work(b, visits, now).1 == Work(b, visits, now).1;
  }

  lemma ContinuesOn(first: Books, visits: seq<Visit>, b: Books, i: nat, done: seq<Outcome>, now: int)
    requires i < |visits| && Continues(first, visits, b, visits[i..], done, now)
    ensures var k := Earliest(b.batches, now);
            if k.None? then Work(first, visits, now).0 == b && Work(first, visits, now).1 == done
            else
              var (served, outcome) := VisitOnce(b, k.value, visits[i], now);
              if outcome == Stopped
              then Work(first, visits, now).0 == served && Work(first, visits, now).1 == done + [outcome]
              else Continues(first, visits, served, visits[i + 1..], done + [outcome], now)
  {
    WorkTurn(b, visits[i..], now);
    assert visits[i..][0] == visits[i] && visits[i..][1..] == visits[i + 1..];
  }

  lemma ContinuesAtEnd(first: Books, visits: seq<Visit>, b: Books, done: seq<Outcome>, now: int)
    requires Continues(first, visits, b, visits[|visits|..], done, now)
    ensures Work(first, visits, now).0 == b && Work(first, visits, now).1 == done
  {
    assert visits[|visits|..] == [] && done + [] == done;
  }

  /** From a consistent ledger the loop leaves a consistent one and is never stopped by its own error handler. */
  lemma {:induction false} WorkKeeps(b: Books, visits: seq<Visit>, now: int)
    requires Inv(b)
    ensures Inv(Work(b, visits, now).0) && Tally(Work(b, visits, now).1, Is(Stopped)) == 0
    decreases |visits|
  {
    var k := Earliest(b.batches, now);
    if visits != [] && k.Some? {
      WorkTurn(b, visits, now);
      VisitKeeps(b, visits[0], now);
      var (served, outcome) := VisitOnce(b, k.value, visits[0], now);
      WorkKeeps(served, visits[1..], now);
      OneBefore(outcome, Work(served, visits[1..], now).1, Is(Stopped));
    }
  }

  lemma {:induction false} OneBefore<T>(x: T, xs: seq<T>, w: T -> nat)
    ensures Tally([x] + xs, w) == w(x) + Tally(xs, w)
  {
    if xs == [] {
      TallyAppend([], x, w);
      assert [x] + xs == [] + [x];
    } else {
      var n := |xs| - 1;
      OneBefore(x, xs[..n], w);
      assert ([x] + xs)[..|xs|] == [x] + xs[..n];
    }
  }

  /** The batches a revocation releases: unsubmitted ones of the grant that no worker is busy with. */
  predicate IsReleasable(batch: Batch, g: nat) {
    batch.grant == g && !batch.submitted && (batch.status == Collecting || batch.status == Queued || batch.status == Retrying)
  }

  function Releasable(batches: seq<Batch>, g: nat): (ks: seq<nat>)
    ensures forall k :: k in ks <==> 0 <= k < |batches| && IsReleasable(batches[k], g)
  {
    if batches == [] then []
    else
      var n := |batches| - 1;
      Releasable(batches[..n], g) + if IsReleasable(batches[n], g) then [n] else []
  }

  function ReleaseEach(b: Books, ks: seq<nat>, now: int): Books {
    if ks == [] then b
    else
      var before := ReleaseEach(b, ks[..|ks| - 1], now);
      OrUnchanged(before, Release(before, ks[|ks| - 1], false, now))
  }

  /** A batch before and after releases that listed it or did not. */
  ghost predicate Freed(x: Batch, y: Batch, listed: bool) {
    if listed && !IsTerminal(x.status) then y.status == BatchStatus.Released else y == x
  }

  ghost predicate SameStatuses(b: Books, m: Books) {
    |m.grants| == |b.grants| && forall g :: 0 <= g < |b.grants| ==> m.grants[g].status == b.grants[g].status
  }

  lemma ReleaseLive(b: Books, k: nat, now: int)
    requires Inv(b) && k < |b.batches| && !IsTerminal(b.batches[k].status)
    ensures var r := Release(b, k, false, now);
            && r.Ok? && Inv(r.value) && |r.value.batches| == |b.batches| && SameStatuses(b, r.value)
            && forall j :: 0 <= j < |b.batches| ==> Freed(b.batches[j], r.value.batches[j], j == k)
  {
    MeteredTheorems.ReleaseAlwaysCommits(b, k, false, now);
    ReleaseKeeps(b, k, false, now);
    var batch, g, s, events := ReleaseRows(b, k, false, now);
  }

  lemma ReleaseOne(b: Books, k: nat, now: int)
    requires Inv(b) && k < |b.batches|
    ensures var m := OrUnchanged(b, Release(b, k, false, now));
            && Inv(m) && |m.batches| == |b.batches| && SameStatuses(b, m)
            && forall j :: 0 <= j < |b.batches| ==> Freed(b.batches[j], m.batches[j], j == k)
  {
    if IsTerminal(b.batches[k].status) {
      assert Release(b, k, false, now) == Ok(b);
    } else {
      ReleaseLive(b, k, now);
    }
  }

  lemma InLast(ks: seq<nat>)
    requires ks != []
    ensures forall j :: j in ks <==> j in ks[..|ks| - 1] || j == ks[|ks| - 1]
  {
    assert ks == ks[..|ks| - 1] + [ks[|ks| - 1]];
  }

  ghost predicate AllFreed(xs: seq<Batch>, ys: seq<Batch>, ks: seq<nat>) {
    |ys| == |xs| && forall j :: 0 <= j < |xs| ==> Freed(xs[j], ys[j], j in ks)
  }

  lemma FreedOnceMore(xs: seq<Batch>, ys: seq<Batch>, zs: seq<Batch>, ks: seq<nat>)
    requires ks != [] && AllFreed(xs, ys, ks[..|ks| - 1]) && |zs| == |ys|
    requires forall j :: 0 <= j < |ys| ==> Freed(ys[j], zs[j], j == ks[|ks| - 1])
    ensures AllFreed(xs, zs, ks)
  {
    InLast(ks);
    forall j | 0 <= j < |xs| ensures Freed(xs[j], zs[j], j in ks) {
      assert Freed(xs[j], ys[j], j in ks[..|ks| - 1]) && Freed(ys[j], zs[j], j == ks[|ks| - 1]);
    }
  }

  lemma {:induction false} ReleaseEachReleases(b: Books, ks: seq<nat>, now: int)
    requires Inv(b) && forall i :: 0 <= i < |ks| ==> ks[i] < |b.batches|
    ensures var m := ReleaseEach(b, ks, now);
            Inv(m) && SameStatuses(b, m) && AllFreed(b.batches, m.batches, ks)
  {
    if ks != [] {
      var n := |ks| - 1;
      ReleaseEachReleases(b, ks[..n], now);
      ReleaseOne(ReleaseEach(b, ks[..n], now), ks[n], now);
      FreedOnceMore(b.batches, ReleaseEach(b, ks[..n], now).batches, ReleaseEach(b, ks, now).batches, ks);
    }
  }

  /** A revocation leaves the grant revoked, releases every unsubmitted batch of it that no worker is busy with, and
      touches no other batch. */
  lemma RevocationReleases(b: Books, g: nat, owner: nat, app: nat, now: int)
    requires Inv(b) && g < |b.grants| && b.grants[g].owner == owner && b.grants[g].app == app && b.grants[g].status == Active
    ensures var m := ReleaseEach(Revoke(b, g, owner, app), Releasable(b.batches, g), now);
            && Inv(m) && |m.grants| == |b.grants| && m.grants[g].status == Revoked && |m.batches| == |b.batches|
            && forall k :: 0 <= k < |b.batches| ==>
                 if IsReleasable(b.batches[k], g) then m.batches[k].status == BatchStatus.Released
                 else m.batches[k] == b.batches[k]
  {
    RevokeKeeps(b, g);
    var ks := Releasable(b.batches, g);
    forall i | 0 <= i < |ks| ensures ks[i] < |b.batches| {
      assert ks[i] in ks;
    }
    ReleaseEachReleases(Revoke(b, g, owner, app), ks, now);
    var m := ReleaseEach(Revoke(b, g, owner, app), ks, now);
    forall k | 0 <= k < |b.batches| ensures Freed(b.batches[k], m.batches[k], IsReleasable(b.batches[k], g)) {
      assert k in ks <==> IsReleasable(b.batches[k], g);
    }
  }

  class MeteredStore {
    var sessions: seq<Session>
    var grants: seq<Grant>
    var batches: seq<Batch>
    var events: seq<Event>
    var windows: map<(nat, int), nat>
    var funds: Funding.Ledger
    var nextLease: nat

    function Contents(): Books
      reads this
    {
      Books(sessions, grants, batches, events, windows, funds, nextLease)
    }

    constructor ()
      ensures Contents() == Books([], [], [], [], map[], Funding.Ledger([], []), 0) && Inv(Contents())
    {
      sessions, grants, batches, events, windows, funds, nextLease := [], [], [], [], map[], Funding.Ledger([], []), 0;
    }

    /** Finds the batch an event joins, closing a full one and creating a new one as needed. */
    method FindOrCreateBatch(u: Usage, g: Grant, now: int) returns (k: nat)
      modifies this`batches
      ensures (batches, k) == MakeRoom(old(batches), u, g, now)
    {
      var immediate := u.amount >= g.threshold;
      var found := None;
      if !immediate {
        found := FindAccepting(batches, u.grant);
        if found.Some? && (batches[found.value].count >= g.maxEvents
                           || batches[found.value].total + u.amount > g.maxBatch)
        {
          var batch := batches[found.value];
          batch := batch.(accepting := false);
          batch := batch.(status := Queued);
          batch := batch.(runAfter := now);
          batches := batches[found.value := batch];
          found := None;
        }
      }
      if found.None? {
        batches := batches + [Batch(u.grant, g.session, !immediate, if immediate then Queued else Collecting, 0, 0,
                                    if immediate then now else now + g.delay, 0, None, None, false)];
        return |batches| - 1;
      }
      return found.value;
    }

    method AddToBatch(k: nat, g: Grant, amount: nat, now: int)
      requires k < |batches|
      modifies this`batches
      ensures batches == old(batches)[k := AddTo(old(batches[k]), g, amount, now)]
    {
      var batch := batches[k];
      batch := batch.(total := batch.total + amount);
      batch := batch.(count := batch.count + 1);
      if amount >= g.threshold || g.delay == 0 || batch.total >= g.threshold || batch.total >= g.maxBatch
         || batch.count >= g.maxEvents
      {
        batch := batch.(accepting := false);
        batch := batch.(status := Queued);
        batch := batch.(runAfter := now);
      }
      batches := batches[k := batch];
    }

    method AcceptEvent(u: Usage, now: int)
      requires u.grant < |grants| && grants[u.grant].session < |sessions| && grants[u.grant].windowSeconds >= 1
      modifies this
      ensures Contents() == Accept(old(Contents()), u, now)
    {
      var grant := grants[u.grant];
      var session := sessions[grant.session];
      var start := WindowStart(now, grant.windowSeconds);
      var count := Admitted(Contents(), u.grant, start);
      windows := windows[(u.grant, start) := count + 1];
      var k := FindOrCreateBatch(u, grant, now);
      AddToBatch(k, grant, u.amount, now);
      events := events + [Event(u, k, EventReserved, now, None)];
      grants := grants[u.grant := grant.(reserved := grant.reserved + u.amount)];
      sessions := sessions[grant.session := session.(reserved := session.reserved + u.amount)];
    }

    method SubmitUsageEvent(owner: nat, u: Usage, now: int) returns (r: Result<nat, Rejection>)
      modifies this
      ensures var outcome := Submit(old(Contents()), owner, u, now);
              if outcome.Ok? then r == Ok(outcome.value.1) && Contents() == outcome.value.0
              else r == Err(outcome.error) && Contents() == old(Contents())
    {
      if u.amount == 0 {
        return Err(AmountInvalid);
      }
      if u.amount > MAX_SAFE {
        return Err(LegacyLimit);
      }
      var replay := FindEvent(events, u.app, u.externalId);
      if replay.Some? {
        if events[replay.value].usage != u {
          return Err(IdempotencyConflict);
        }
        return Ok(replay.value);
      }
      var _ :- Admit(Contents(), owner, u, now);
      AcceptEvent(u, now);
      return Ok(|events| - 1);
    }

    /** Adds up what a batch holds open. */
    method OpenTotal(k: nat) returns (total: nat)
      ensures total == Tally(events, OpenIn(k))
    {
      total := 0;
      for i := 0 to |events|
        invariant total == Tally(events[..i], OpenIn(k))
      {
        assert events[..i + 1][..i] == events[..i];
        if events[i].batch == k && IsOpen(events[i]) {
          total := total + events[i].usage.amount;
        }
      }
      assert events[..|events|] == events;
    }

    /** Gives a batch's open amount back to its grant and session and ends the batch. */
    method ReturnReservation(k: nat, total: nat, failed: bool, now: int)
      requires k < |batches| && batches[k].grant < |grants| && batches[k].session < |sessions|
      requires total <= grants[batches[k].grant].reserved && total <= sessions[batches[k].session].reserved
      modifies this
      ensures var b := old(Contents());
              var batch := b.batches[k];
              Contents() == b.(
                sessions := b.sessions[batch.session :=
                                         b.sessions[batch.session].(reserved := b.sessions[batch.session].reserved - total)],
                grants := b.grants[batch.grant := b.grants[batch.grant].(reserved := b.grants[batch.grant].reserved - total)],
                batches := b.batches[k := End(batch, if failed then BatchStatus.Failed else BatchStatus.Released, now)],
                events := Conclude(b.events, k, if failed then EventFailed else EventReleased))
    {
      var batch := batches[k];
      var grant, session := grants[batch.grant], sessions[batch.session];
      grants := grants[batch.grant := grant.(reserved := grant.reserved - total)];
      sessions := sessions[batch.session := session.(reserved := session.reserved - total)];
      events := Conclude(events, k, if failed then EventFailed else EventReleased);
      batch := batch.(status := if failed then BatchStatus.Failed else BatchStatus.Released);
      batch := batch.(accepting := false);
      batch := batch.(leaseExpires := Some(now));
      batch := batch.(lease := None);
      batches := batches[k := batch];
    }

    method ReleaseMeteredBatchReservation(k: nat, failed: bool, now: int) returns (r: Result<bool, Rejection>)
      modifies this
      ensures var outcome := Release(old(Contents()), k, failed, now);
              && Contents() == OrUnchanged(old(Contents()), outcome)
              && (r.Ok? <==> outcome.Ok?) && (r.Err? ==> outcome == Err(r.error))
    {
      if k >= |batches| || IsTerminal(batches[k].status) {
        return Ok(false);
      }
      var batch := batches[k];
      var total := OpenTotal(k);
      if batch.grant >= |grants| || batch.session >= |sessions| {
        return Err(OwnerStateMissing);
      }
      if grants[batch.grant].reserved < total || sessions[batch.session].reserved < total {
        return Err(CountersInconsistent);
      }
      if sessions[batch.session].reserved - total > MAX_SAFE {
        return Err(LegacyLimit);
      }
      ReturnReservation(k, total, failed, now);
      return Ok(true);
    }

    /** Issues the receipts of the listed events one by one. */
    method CreateReceipts(concluded: seq<Event>, k: nat, listing: seq<nat>, shares: seq<nat>, known: bool, proof: nat, now: int)
      returns (r: Result<seq<Event>, Rejection>)
      requires |shares| == |listing| && forall i :: 0 <= i < |listing| ==> listing[i] < |concluded|
      ensures r == IssueReceipts(concluded, k, listing, shares, known, proof, now)
    {
      var issued := concluded;
      for n := 0 to |listing|
        invariant |issued| == |concluded|
        invariant IssueReceipts(concluded, k, listing[..n], shares[..n], known, proof, now) == Ok(issued)
      {
        assert listing[..n + 1][..n] == listing[..n] && shares[..n + 1][..n] == shares[..n];
        var event := issued[listing[n]];
        var receipt := Issue(event.receipt, Receipt(k, event.usage.amount, shares[n], known, proof, now));
        if receipt.Err? {
          ReceiptsStop(concluded, k, listing, shares, known, proof, now, n + 1);
          return Err(ReceiptConflict);
        }
        issued := issued[listing[n] := event.(receipt := Some(receipt.value))];
      }
      assert listing[..|listing|] == listing && shares[..|shares|] == shares;
      return Ok(issued);
    }

    /** A conflict on an earlier receipt is the result of the whole issue. */
    static lemma {:induction false} ReceiptsStop(concluded: seq<Event>, k: nat, listing: seq<nat>, shares: seq<nat>, known: bool, proof: nat,
                                                 now: int, n: nat)
      requires |shares| == |listing| && forall i :: 0 <= i < |listing| ==> listing[i] < |concluded|
      requires n <= |listing| && IssueReceipts(concluded, k, listing[..n], shares[..n], known, proof, now) == Err(ReceiptConflict)
      ensures IssueReceipts(concluded, k, listing, shares, known, proof, now) == Err(ReceiptConflict)
    {
      if n == |listing| {
        assert listing[..n] == listing && shares[..n] == shares;
      } else {
        var last := |listing| - 1;
        assert listing[..last][..n] == listing[..n] && shares[..last][..n] == shares[..n];
        ReceiptsStop(concluded, k, listing[..last], shares[..last], known, proof, now, n);
      }
    }

    /** The grant and the session after a settlement moved from reserved to spent. */
    method MoveToSpent(g: Grant, s: Session, total: nat) returns (grant: Grant, session: Session)
      requires total <= g.reserved && total <= s.reserved
      ensures grant == SettleGrant(g, total) && session == SettleSession(s, total)
    {
      grant, session := g, s;
      grant := grant.(reserved := grant.reserved - total);
      grant := grant.(spent := grant.spent + total);
      if grant.spent >= grant.totalLimit && grant.status == GrantStatus.Active {
        grant := grant.(status := Depleted);
      }
      session := session.(reserved := session.reserved - total);
      session := session.(spent := session.spent + total);
      if session.spent >= session.limit {
        session := session.(status := Expired);
      }
    }

    method StoreSettlement(k: nat, grant: Grant, session: Session, settled: seq<Event>, ledger: Funding.Ledger, now: int)
      requires k < |batches| && batches[k].grant < |grants| && batches[k].session < |sessions|
      modifies this
      ensures var b := old(Contents());
              Contents() == EndBooks(b, k, End(b.batches[k], Succeeded, now), grant, session, settled, ledger)
    {
      var batch := batches[k];
      batch := batch.(status := Succeeded);
      batch := batch.(accepting := false);
      batch := batch.(lease := None);
      batch := batch.(leaseExpires := Some(now));
      grants, sessions := grants[batch.grant := grant], sessions[batch.session := session];
      batches, events, funds := batches[k := batch], settled, ledger;
    }

    method FinalizeMeteredBatch(k: nat, fee: Fee, proof: nat, now: int) returns (r: Result<bool, Rejection>)
      modifies this
      ensures var outcome := Finalize(old(Contents()), k, Listing(old(events), k), fee, proof, now);
              && Contents() == OrUnchanged(old(Contents()), outcome)
              && (r.Ok? <==> outcome.Ok?) && (r.Err? ==> outcome == Err(r.error))
    {
      if k >= |batches| || batches[k].status == Succeeded {
        return Ok(false);
      }
      var batch, listing := batches[k], Listing(events, k);
      var amounts := Usages(At(events, listing));
      var total := SumOf(amounts);
      var _ :- CheckSettlement(Contents(), k, total, |listing|);
      var grant, session := MoveToSpent(grants[batch.grant], sessions[batch.session], total);
      var ledger :- Funded(Funding.Spend(funds, batch.session, total, now));
      var shares :- FeeShares(fee, amounts);
      var settled :- CreateReceipts(Conclude(events, k, EventSettled), k, listing, shares, fee.Known?, proof, now);
      StoreSettlement(k, grant, session, settled, ledger, now);
      return Ok(true);
    }

    /** Claims the batch due first. */
    method ClaimMeteredBatch(now: int) returns (k: Option<nat>)
      modifies this
      ensures k == Earliest(old(batches), now)
      ensures Contents() == if k.Some? then Claim(old(Contents()), k.value, now) else old(Contents())
    {
      k := None;
      for i := 0 to |batches|
        invariant k == Earliest(batches[..i], now)
        invariant batches == old(batches) && Contents() == old(Contents())
      {
        assert batches[..i + 1][..i] == batches[..i];
        if Claimable(batches[i], now) && (k.None? || batches[i].runAfter < batches[k.value].runAfter) {
          k := Some(i);
        }
      }
      assert batches[..|batches|] == batches;
      if k.Some? {
        var batch := batches[k.value];
        batch := batch.(status := Processing);
        batch := batch.(accepting := false);
        batch := batch.(lease := Some(nextLease));
        batch := batch.(leaseExpires := Some(now + BATCH_LEASE_MS));
        batch := batch.(attempts := batch.attempts + 1);
        batches, nextLease := batches[k.value := batch], nextLease + 1;
      }
    }

    method ReleaseBatches(releasable: seq<nat>, now: int)
      modifies this
      ensures Contents() == ReleaseEach(old(Contents()), releasable, now)
    {
      for i := 0 to |releasable|
        invariant Contents() == ReleaseEach(old(Contents()), releasable[..i], now)
      {
        assert releasable[..i + 1][..i] == releasable[..i];
        var _ := ReleaseMeteredBatchReservation(releasable[i], false, now);
      }
      assert releasable[..|releasable|] == releasable;
    }

    method RevokeMeteredGrant(g: nat, owner: nat, app: nat, now: int) returns (r: Result<GrantStatus, Rejection>)
      modifies this
      ensures var b := old(Contents());
              if g >= |b.grants| || b.grants[g].owner != owner || b.grants[g].app != app
              then r == Err(GrantNotFound) && Contents() == b
              else if b.grants[g].status != GrantStatus.Active then r == Ok(b.grants[g].status) && Contents() == b
              else Contents() == ReleaseEach(Revoke(b, g, owner, app), Releasable(b.batches, g), now)
                   && (g < |grants| ==> r == Ok(grants[g].status))
    {
      if g >= |grants| || grants[g].owner != owner || grants[g].app != app {
        return Err(GrantNotFound);
      }
      if grants[g].status != GrantStatus.Active {
        return Ok(grants[g].status);
      }
      grants := grants[g := grants[g].(status := Revoked)];
      ReleaseBatches(Releasable(batches, g), now);
      return if g < |grants| then Ok(grants[g].status) else Err(GrantNotFound);
    }

    method Restore(b: Books)
      modifies this
      ensures Contents() == b
    {
      sessions, grants, batches, events := b.sessions, b.grants, b.batches, b.events;
      windows, funds, nextLease := b.windows, b.funds, b.nextLease;
    }

    method RetryMeteredBatch(k: nat, batch: Batch, lease: nat, submitted: bool, now: int)
      modifies this
      ensures Contents() == Retry(old(Contents()), k, lease, batch.attempts, submitted, now)
    {
      if k < |batches| && batches[k].lease == Some(lease) {
        var stored := batches[k];
        stored := stored.(status := if submitted then Uncertain else Retrying);
        stored := stored.(runAfter := now + Backoff(batch.attempts));
        stored := stored.(leaseExpires := Some(now));
        stored := stored.(lease := None);
        batches := batches[k := stored];
      }
    }

    method HandleError(k: nat, batch: Batch, lease: nat, retryable: bool, at: int) returns (outcome: Outcome)
      modifies this
      ensures (Contents(), outcome) == OnError(old(Contents()), k, batch, lease, retryable, at)
    {
      var submitted := k < |batches| && batches[k].submitted;
      if retryable && batch.attempts < MAX_ATTEMPTS {
        RetryMeteredBatch(k, batch, lease, submitted, at);
        return Rescheduled;
      }
      var r := ReleaseMeteredBatchReservation(k, true, at);
      return if r.Ok? then Returned else Stopped;
    }

    method HandleReply(k: nat, batch: Batch, lease: nat, reply: Reply, submitted: bool, at: int) returns (outcome: Outcome)
      modifies this
      ensures (Contents(), outcome) == React(old(Contents()), k, batch, lease, reply, submitted, at)
    {
      match reply
      case Confirmed(fee, proof) =>
        var r := FinalizeMeteredBatch(k, fee, proof, at);
        if r.Ok? {
          return Settled;
        }
        outcome := HandleError(k, batch, lease, Retryable(r.error), at);
      case Unsettled =>
        RetryMeteredBatch(k, batch, lease, submitted, at);
        return StillPending;
      case Refused =>
        outcome := HandleRelease(k, batch, lease, true, at);
      case Threw(retryable) =>
        outcome := HandleError(k, batch, lease, retryable, at);
    }

    method HandleRelease(k: nat, batch: Batch, lease: nat, failed: bool, at: int) returns (outcome: Outcome)
      modifies this
      ensures (Contents(), outcome) == GiveUp(old(Contents()), k, batch, lease, failed, at)
    {
      var r := ReleaseMeteredBatchReservation(k, failed, at);
      if r.Ok? {
        return Returned;
      }
      outcome := HandleError(k, batch, lease, true, at);
    }

    method ExecuteBatch(k: nat, batch: Batch, lease: nat, v: Visit) returns (outcome: Outcome)
      modifies this
      ensures (Contents(), outcome) == Execute(old(Contents()), k, batch, lease, v)
    {
      Restore(Run(Contents(), v.whilePreparing));
      if v.prepared.Err? {
        outcome := HandleError(k, batch, lease, v.prepared.error, v.at);
        return;
      }
      if k >= |batches| || batches[k].lease != Some(lease) {
        return LeaseLost;
      }
      events := MarkSettling(events, k);
      if v.marks {
        batches := batches[k := batches[k].(submitted := true)];
      }
      Restore(Run(Contents(), v.whileExecuting));
      outcome := HandleReply(k, batch, lease, v.reply, v.marks, v.at);
    }

    method ServeBatch(k: nat, batch: Batch, lease: nat, v: Visit) returns (outcome: Outcome)
      modifies this
      ensures (Contents(), outcome) == Serve(old(Contents()), k, batch, lease, v)
    {
      if batch.grant >= |grants| {
        outcome := HandleError(k, batch, lease, false, v.at);
        return;
      }
      if grants[batch.grant].status == GrantStatus.Revoked && !batch.submitted {
        outcome := HandleRelease(k, batch, lease, false, v.at);
        return;
      }
      if batch.submitted {
        Restore(Run(Contents(), v.whileLooking));
        if v.lookup.Some? {
          outcome := HandleReply(k, batch, lease, v.lookup.value, true, v.at);
          return;
        }
      }
      outcome := ExecuteBatch(k, batch, lease, v);
    }

    /** One turn of the loop: claims the batch due first, if there is one, and visits it. */
    method TakeTurn(v: Visit, now: int) returns (turn: Option<Outcome>)
      modifies this
      ensures var b, k := old(Contents()), Earliest(old(batches), now);
              if k.None? then turn == None && Contents() == b
              else turn.Some? && (Contents(), turn.value) == VisitOnce(b, k.value, v, now)
    {
      var lease := nextLease;
      var k := ClaimMeteredBatch(now);
      if k.None? {
        return None;
      }
      var outcome := ServeBatch(k.value, batches[k.value], lease, v);
      return Some(outcome);
    }

    /** The worker's loop. It counts every visit under exactly one outcome. */
    method RunMeteredPaymentWorker(visits: seq<Visit>, now: int) returns (output: WorkerResult, stopped: bool)
      modifies this
      ensures Contents() == Work(old(Contents()), visits, now).0
      ensures Counts(output, Work(old(Contents()), visits, now).1)
      ensures stopped <==> Tally(Work(old(Contents()), visits, now).1, Is(Stopped)) > 0
    {
      output, stopped := WorkerResult(0, 0, 0, 0, 0, 0), false;
      ghost var done: seq<Outcome> := [];
      ContinuesAtFirst(Contents(), visits, now);
      for i := 0 to |visits|
        invariant !stopped && Counts(output, done) && Tally(done, Is(Stopped)) == 0
        invariant Continues(old(Contents()), visits, Contents(), visits[i..], done, now)
      {
        ContinuesOn(old(Contents()), visits, Contents(), i, done, now);
        var turn := TakeTurn(visits[i], now);
        if turn.None? {
          return;
        }
        CountOneMore(output, done, turn.value);
        output := CountOne(output, turn.value);
        done := done + [turn.value];
        if turn.value == Stopped {
          stopped := true;
          return;
        }
      }
      ContinuesAtEnd(old(Contents()), visits, Contents(), done, now);
    }
  }
}
