/** What the metered service answers and leaves, on the stored rows: when a usage event is accepted and which batch it
    joins, when a grant is created, and what a settlement leaves on every row, each event's part of the fee included
    (src/services/meteredPayment.service.ts, src/services/meteredPaymentWorker.service.ts). */
module MeteredAnswers {
  import opened Wrappers
  import opened Money
  import opened Tallies
  import opened Receipts
  import opened Metered
  import opened MeteredInvariant
  import opened MeteredSteps
  import opened MeteredTheorems
  import Funding
  import FundingInvariant

  // Who may charge.

  /** The owner keeps the pass open for this application: it may charge, unattended, and the pass has not expired. */
  predicate PassServes(s: Session, owner: nat, app: nat, now: int) {
    && s.status == Open && s.app.Some? && s.app.value == app && s.grantOwner.Some? && s.grantOwner.value == owner
    && s.mayCharge && s.autoCharges && (s.expiryAt.None? || s.expiryAt.value > now)
  }

  /** A grant is created exactly for its owner's own pass that serves the application, with limits in order and within the
      pass, an expiry ahead and not after the pass's, and an allowed destination. */
  lemma GrantCreatedIff(b: Books, g: Grant, allowed: bool, now: int)
    ensures CreateGrant(b, g, allowed, now).Ok? <==>
            && 0 < g.maxPerEvent <= g.totalLimit && g.maxPerEvent <= g.maxBatch && 0 < g.threshold <= g.maxBatch
            && g.rateCount > 0 && g.windowSeconds > 0 && g.maxEvents > 0
            && g.expiresAt > now && g.session < |b.sessions| && b.sessions[g.session].owner == g.owner
            && PassServes(b.sessions[g.session], g.owner, g.app, now)
            && (b.sessions[g.session].expiryAt.Some? ==> b.sessions[g.session].expiryAt.value >= g.expiresAt)
            && g.totalLimit <= b.sessions[g.session].limit && allowed
    ensures CreateGrant(b, g, allowed, now).Ok? ==>
              CreateGrant(b, g, allowed, now).value == b.(grants := b.grants + [g.(status := Active, reserved := 0, spent := 0)])
  {}

  /** A revocation touches an active grant of its owner and application, and only its status. */
  lemma RevokeMoves(b: Books, g: nat, owner: nat, app: nat)
    ensures var may := g < |b.grants| && b.grants[g].owner == owner && b.grants[g].app == app && b.grants[g].status == Active;
            Revoke(b, g, owner, app) == if may then b.(grants := b.grants[g := b.grants[g].(status := Revoked)]) else b
  {}

  // Accepting a usage event.

  ghost predicate NoEvent(b: Books, u: Usage) {
    forall j :: 0 <= j < |b.events| ==> b.events[j].usage.app != u.app || b.events[j].usage.externalId != u.externalId
  }

  /** How many events of the grant were accepted in the rate window that holds `now`. */
  ghost function InWindow(b: Books, g: nat, now: int): nat {
    if g >= |b.grants| || b.grants[g].windowSeconds == 0 then 0
    else Tally(b.events, AdmittedIn(g, b.grants[g].windowSeconds, WindowStart(now, b.grants[g].windowSeconds)))
  }

  /** The rate window of a time starts at a multiple of its width, at most one width before. */
  lemma WindowIs(time: int, windowSeconds: nat) returns (q: int)
    requires windowSeconds > 0
    ensures WindowStart(time, windowSeconds) == q * (windowSeconds * 1000)
    ensures WindowStart(time, windowSeconds) <= time < WindowStart(time, windowSeconds) + windowSeconds * 1000
  {
    var width := windowSeconds * 1000;
    q := time / width;
    assert time == q * width + time % width;
  }

  /** The grant the event names exists for the caller, is active and unexpired, and covers the amount. */
  predicate GrantServes(b: Books, owner: nat, u: Usage, now: int) {
    && u.grant < |b.grants|
    && var g := b.grants[u.grant];
       && g.app == u.app && g.owner == owner && g.status == Active && g.expiresAt > now
       && u.amount <= g.maxPerEvent && g.reserved + g.spent + u.amount <= g.totalLimit
  }

  /** Why a new usage event is refused, in the order it is checked; `count` events are in its rate window. */
  function Refusal(b: Books, owner: nat, u: Usage, now: int, count: nat): Option<Rejection> {
    if u.amount == 0 then Some(AmountInvalid)
    else if u.amount > MAX_SAFE then Some(LegacyLimit)
    else if u.grant >= |b.grants| || b.grants[u.grant].app != u.app || b.grants[u.grant].owner != owner then Some(GrantNotFound)
    else
      var g := b.grants[u.grant];
      if g.status != Active then Some(GrantInactive)
      else if g.expiresAt <= now then Some(GrantExpired)
      else if u.amount > g.maxPerEvent then Some(PerEventExceeded)
      else if g.reserved + g.spent + u.amount > g.totalLimit then Some(GrantLimitExceeded)
      else if g.session >= |b.sessions| || b.sessions[g.session].owner != owner then Some(SessionNotFound)
      else
        var s := b.sessions[g.session];
        if !PassServes(s, owner, u.app, now) then Some(AppGrantInvalid)
        else if s.reserved + s.spent + u.amount > s.limit then Some(SessionLimitExceeded)
        else if count >= g.rateCount then Some(RateLimited)
        else if s.reserved + u.amount > MAX_SAFE then Some(LegacyLimit)
        else None
  }

  lemma AdmitAnswer(b: Books, owner: nat, u: Usage, now: int, count: nat)
    requires 0 < u.amount <= MAX_SAFE
    requires u.grant < |b.grants| ==>
               && b.grants[u.grant].windowSeconds > 0
               && Admitted(b, u.grant, WindowStart(now, b.grants[u.grant].windowSeconds)) == count
    ensures Admit(b, owner, u, now) == match Refusal(b, owner, u, now, count) case None => Ok(()) case Some(e) => Err(e)
  {}

  /** A new usage event is accepted exactly when nothing refuses it, and refused for the first thing that does. */
  lemma NewEventAnswer(b: Books, owner: nat, u: Usage, now: int)
    requires Inv(b) && NoEvent(b, u)
    ensures var refusal := Refusal(b, owner, u, now, InWindow(b, u.grant, now));
            && (Submit(b, owner, u, now).Ok? <==> refusal.None?)
            && (Submit(b, owner, u, now).Err? ==> refusal == Some(Submit(b, owner, u, now).error))
  {
    assert FindEvent(b.events, u.app, u.externalId).None?;
    if u.grant < |b.grants| {
      assert GrantOk(b.grants[u.grant], u.grant, b.events, |b.sessions|);
      assert WindowOk(b, u.grant, WindowStart(now, b.grants[u.grant].windowSeconds));
    }
    if 0 < u.amount <= MAX_SAFE {
      AdmitAnswer(b, owner, u, now, InWindow(b, u.grant, now));
    }
  }

  /** The same as one condition on the rows. */
  lemma NewEventAcceptedIff(b: Books, owner: nat, u: Usage, now: int)
    requires Inv(b) && NoEvent(b, u)
    ensures Submit(b, owner, u, now).Ok? <==>
            && 0 < u.amount <= MAX_SAFE && GrantServes(b, owner, u, now)
            && var g := b.grants[u.grant];
               && g.session < |b.sessions| && g.windowSeconds > 0
               && var s := b.sessions[g.session];
                  && s.owner == owner && PassServes(s, owner, u.app, now)
                  && s.reserved + s.spent + u.amount <= s.limit && s.reserved + u.amount <= MAX_SAFE
                  && InWindow(b, u.grant, now) < g.rateCount
  {
    NewEventAnswer(b, owner, u, now);
    if u.grant < |b.grants| {
      assert GrantOk(b.grants[u.grant], u.grant, b.events, |b.sessions|);
    }
  }

  /** An event that is stored already is returned to the same request and refused to any other. */
  lemma StoredEventAnswer(b: Books, owner: nat, u: Usage, now: int, j: nat)
    requires UniqueKeys(b.events) && j < |b.events|
    requires b.events[j].usage.app == u.app && b.events[j].usage.externalId == u.externalId
    ensures Submit(b, owner, u, now)
            == if u.amount == 0 then Err(AmountInvalid) else if u.amount > MAX_SAFE then Err(LegacyLimit)
               else if b.events[j].usage == u then Ok((b, j)) else Err(IdempotencyConflict)
  {
    assert FindEvent(b.events, u.app, u.externalId) == Some(j);
  }

  /** Over every run from the empty ledger: whenever a submission adds an event, its grant is at that moment active and
      unexpired and covers it, its pass is open to the application, unattended and unexpired, belongs to the caller and
      covers it, and the rate window has room. */
  lemma AddedEventsWereAllowed(ops: seq<(Op, int)>, j: nat)
    requires j < |ops| && ops[j].0.DoSubmit? && |Run(EMPTY, ops[..j + 1]).events| > |Run(EMPTY, ops[..j]).events|
    ensures var b, owner, u, now := Run(EMPTY, ops[..j]), ops[j].0.owner, ops[j].0.usage, ops[j].1;
            && NoEvent(b, u) && GrantServes(b, owner, u, now)
            && var g := b.grants[u.grant];
               && g.session < |b.sessions| && g.windowSeconds > 0
               && var s := b.sessions[g.session];
                  && s.owner == owner && PassServes(s, owner, u.app, now)
                  && s.reserved + s.spent + u.amount <= s.limit && InWindow(b, u.grant, now) < g.rateCount
  {
    var b, owner, u, now := Run(EMPTY, ops[..j]), ops[j].0.owner, ops[j].0.usage, ops[j].1;
    Reachable(ops[..j]);
    assert ops[..j + 1][..j] == ops[..j];
    assert Run(EMPTY, ops[..j + 1]) == Step(b, ops[j].0, now);
    var found := FindEvent(b.events, u.app, u.externalId);
    if found.Some? {
      StoredEventAnswer(b, owner, u, now, found.value);
    }
    NewEventAcceptedIff(b, owner, u, now);
  }

  // What an acceptance leaves.

  ghost predicate Accepted(b: Books, owner: nat, u: Usage, now: int) {
    Inv(b) && NoEvent(b, u) && Submit(b, owner, u, now).Ok?
  }

  lemma AcceptIs(b: Books, owner: nat, u: Usage, now: int)
    requires Accepted(b, owner, u, now)
    ensures u.grant < |b.grants| && b.grants[u.grant].session < |b.sessions| && b.grants[u.grant].windowSeconds > 0
    ensures Submit(b, owner, u, now) == Ok((Accept(b, u, now), |b.events|))
  {
    NewEventAcceptedIff(b, owner, u, now);
    assert FindEvent(b.events, u.app, u.externalId).None?;
  }

  /** An accepted event reserves its amount on its grant and its pass, and is stored last. */
  lemma AcceptMoves(b: Books, owner: nat, u: Usage, now: int)
    requires Accepted(b, owner, u, now)
    ensures u.grant < |b.grants| && b.grants[u.grant].session < |b.sessions| && b.grants[u.grant].windowSeconds > 0
    ensures var (m, j) := Submit(b, owner, u, now).value;
            var g := b.grants[u.grant];
            var s := b.sessions[g.session];
            && j == |b.events| && |m.events| == j + 1 && m.events[..j] == b.events
            && m.events[j] == Event(u, m.events[j].batch, EventReserved, now, None)
            && m.grants == b.grants[u.grant := g.(reserved := g.reserved + u.amount)]
            && m.sessions == b.sessions[g.session := s.(reserved := s.reserved + u.amount)]
            && m.funds == b.funds && m.nextLease == b.nextLease
  {
    AcceptIs(b, owner, u, now);
  }

  /** It counts in its rate window, and in no other. */
  lemma AcceptCounts(b: Books, owner: nat, u: Usage, now: int)
    requires Accepted(b, owner, u, now)
    ensures u.grant < |b.grants| && b.grants[u.grant].windowSeconds > 0
    ensures var m := Submit(b, owner, u, now).value.0;
            var key := (u.grant, WindowStart(now, b.grants[u.grant].windowSeconds));
            && m.windows.Keys == b.windows.Keys + {key}
            && (forall other :: other in b.windows && other != key ==> m.windows[other] == b.windows[other])
            && m.windows[key] == InWindow(b, u.grant, now) + 1
  {
    AcceptIs(b, owner, u, now);
    assert WindowOk(b, u.grant, WindowStart(now, b.grants[u.grant].windowSeconds));
  }

  lemma JoinsWhatRoomMakes(b: Books, owner: nat, u: Usage, now: int)
    requires Accepted(b, owner, u, now)
    ensures u.grant < |b.grants|
    ensures var (room, k) := MakeRoom(b.batches, u, b.grants[u.grant], now);
            var (m, j) := Submit(b, owner, u, now).value;
            && m.batches == room[k := AddTo(room[k], b.grants[u.grant], u.amount, now)]
            && j < |m.events| && m.events[j].batch == k
  {
    AcceptIs(b, owner, u, now);
  }

  /** The batch an event can join: collecting for its grant, with room for the amount. */
  ghost predicate HasRoom(b: Books, u: Usage, k: nat)
    requires u.grant < |b.grants|
  {
    && k < |b.batches| && b.batches[k].grant == u.grant && b.batches[k].status == Collecting
    && b.batches[k].total + u.amount <= b.grants[u.grant].maxBatch
  }

  /** When an event closes the batch it joins: it is large or the grant does not wait, or the batch reaches a bound. */
  predicate Closes(g: Grant, amount: nat, total: nat, count: nat) {
    amount >= g.threshold || g.delay == 0 || total >= g.threshold || total >= g.maxBatch || count >= g.maxEvents
  }

  /** The batch after the event: what it holds, and whether it goes on collecting. */
  predicate Joined(g: Grant, u: Usage, now: int, total: nat, count: nat, runAfter: int, after: Batch) {
    && after.total == total + u.amount && after.count == count + 1
    && (if Closes(g, u.amount, after.total, after.count)
        then !after.accepting && after.status == Queued && after.runAfter == now
        else after.accepting && after.status == Collecting && after.runAfter == runAfter)
  }

  lemma AcceptingOf(b: Books, u: Usage, k: nat)
    requires Inv(b) && u.grant < |b.grants| && HasRoom(b, u, k)
    ensures FindAccepting(b.batches, u.grant) == Some(k) && !MustClose(b.batches[k], b.grants[u.grant], u.amount)
  {
    assert BatchOk(b.batches[k], k, b.grants, b.events);
    var found := FindAccepting(b.batches, u.grant).value;
    assert BatchOk(b.batches[found], found, b.grants, b.events);
  }

  /** A small event joins its grant's collecting batch if that has room, and changes no other. */
  lemma AcceptJoins(b: Books, owner: nat, u: Usage, now: int, k: nat)
    requires Accepted(b, owner, u, now)
    requires u.grant < |b.grants| && u.amount < b.grants[u.grant].threshold && HasRoom(b, u, k)
    ensures var (m, j) := Submit(b, owner, u, now).value;
            && j < |m.events| && m.events[j].batch == k && |m.batches| == |b.batches|
            && (forall i :: 0 <= i < |b.batches| && i != k ==> m.batches[i] == b.batches[i])
            && var batch := b.batches[k];
               && Joined(b.grants[u.grant], u, now, batch.total, batch.count, batch.runAfter, m.batches[k])
               && m.batches[k] == batch.(total := m.batches[k].total, count := m.batches[k].count,
                                         accepting := m.batches[k].accepting, status := m.batches[k].status,
                                         runAfter := m.batches[k].runAfter)
  {
    AcceptingOf(b, u, k);
    assert BatchOk(b.batches[k], k, b.grants, b.events);
    JoinsWhatRoomMakes(b, owner, u, now);
  }

  /** The other batches of a submission that opens a new one: a large event leaves the collecting batch alone, a small
      one that found no room closes it. */
  predicate ClosedFor(u: Usage, g: Grant, now: int, batch: Batch, after: Batch) {
    after == if u.amount < g.threshold && batch.grant == u.grant && batch.status == Collecting
             then batch.(accepting := false, status := Queued, runAfter := now) else batch
  }

  lemma RoomOpened(b: Books, u: Usage, now: int)
    requires Inv(b) && u.grant < |b.grants|
    requires u.amount >= b.grants[u.grant].threshold || forall k :: 0 <= k < |b.batches| ==> !HasRoom(b, u, k)
    ensures var (room, k) := MakeRoom(b.batches, u, b.grants[u.grant], now);
            && k == |b.batches| && |room| == k + 1 && room[k] == NewBatch(u, b.grants[u.grant], now)
            && forall i :: 0 <= i < |b.batches| ==> ClosedFor(u, b.grants[u.grant], now, b.batches[i], room[i])
  {
    var g, found := b.grants[u.grant], FindAccepting(b.batches, u.grant);
    if u.amount < g.threshold && found.Some? {
      NoRoomCloses(b, u, found.value);
    }
    forall i | 0 <= i < |b.batches| && b.batches[i].grant == u.grant && b.batches[i].status == Collecting
      ensures found == Some(i)
    {
      assert BatchOk(b.batches[i], i, b.grants, b.events);
    }
  }

  /** Any other event opens a new batch. */
  lemma AcceptOpens(b: Books, owner: nat, u: Usage, now: int)
    requires Accepted(b, owner, u, now) && u.grant < |b.grants|
    requires u.amount >= b.grants[u.grant].threshold || forall k :: 0 <= k < |b.batches| ==> !HasRoom(b, u, k)
    ensures var (m, j) := Submit(b, owner, u, now).value;
            var g, n := b.grants[u.grant], |b.batches|;
            && j < |m.events| && m.events[j].batch == n && |m.batches| == n + 1
            && Joined(g, u, now, 0, 0, now + g.delay, m.batches[n])
            && m.batches[n] == Batch(u.grant, g.session, m.batches[n].accepting, m.batches[n].status, u.amount, 1,
                                     m.batches[n].runAfter, 0, None, None, false)
            && forall i :: 0 <= i < n ==> ClosedFor(u, g, now, b.batches[i], m.batches[i])
  {
    RoomOpened(b, u, now);
    JoinsWhatRoomMakes(b, owner, u, now);
  }

  lemma NoRoomCloses(b: Books, u: Usage, k: nat)
    requires Inv(b) && u.grant < |b.grants| && FindAccepting(b.batches, u.grant) == Some(k) && !HasRoom(b, u, k)
    ensures MustClose(b.batches[k], b.grants[u.grant], u.amount) && b.batches[k].status == Collecting
  {
    assert BatchOk(b.batches[k], k, b.grants, b.events);
  }

  // What a settlement leaves.

  /** An event is open until its batch ends, and a batch has ended once it succeeded, failed or was released. */
  lemma OpenIs(e: Event, s: BatchStatus)
    ensures IsOpen(e) <==> e.status in {EventReserved, EventSettling}
    ensures IsTerminal(s) <==> s in {Succeeded, BatchStatus.Failed, BatchStatus.Released}
    ensures OpenIn(e.batch)(e) == if e.status in {EventReserved, EventSettling} then e.usage.amount else 0
    ensures forall k: nat :: k != e.batch ==> OpenIn(k)(e) == 0
  {}

  ghost predicate Settles(b: Books, k: nat, listing: seq<nat>, fee: Fee, proof: nat, now: int) {
    && Inv(b) && k < |b.batches| && b.batches[k].status != Succeeded && IsListing(b.events, k, listing)
    && Finalize(b, k, listing, fee, proof, now).Ok?
  }

  /** The amounts of the listed events. */
  function Amounts(events: seq<Event>, listing: seq<nat>): (amounts: seq<nat>)
    requires forall i :: 0 <= i < |listing| ==> listing[i] < |events|
    ensures |amounts| == |listing| && forall i :: 0 <= i < |listing| ==> amounts[i] == events[listing[i]].usage.amount
  {
    seq(|listing|, i requires 0 <= i < |listing| => events[listing[i]].usage.amount)
  }

  /** What the `i`-th listed event pays of the fee: its proportional part rounded down, one more for as many of the first
      events as rounding left over, and nothing of a fee that is not known. */
  function FeePart(fee: Fee, amounts: seq<nat>, total: nat, i: nat): nat
    requires i < |amounts| && total > 0
  {
    match fee
    case Known(f) => f * amounts[i] / total + if i < f - Tally(amounts, PartOf(f, total)) then 1 else 0
    case _ => 0
  }

  lemma SharesAreParts(fee: Fee, amounts: seq<nat>, i: nat)
    requires FeeShares(fee, amounts).Ok? && i < |amounts| && Tally(amounts, Self()) > 0
    ensures FeeShares(fee, amounts).value[i] == FeePart(fee, amounts, Tally(amounts, Self()), i) && !fee.Malformed?
  {
    if fee.Known? {
      ShareIs(fee.amount, amounts, i);
    }
  }

  /** The batch's own total, which is positive, is the sum of the listed amounts. */
  lemma ListedTotal(b: Books, k: nat, listing: seq<nat>)
    requires Inv(b) && k < |b.batches| && !IsTerminal(b.batches[k].status) && IsListing(b.events, k, listing)
    ensures Usages(At(b.events, listing)) == Amounts(b.events, listing)
    ensures Tally(Amounts(b.events, listing), Self()) == Tally(b.events, OpenIn(k)) == b.batches[k].total > 0
  {
    assert Usages(At(b.events, listing)) == Amounts(b.events, listing);
    ListingTotals(b.events, k, listing);
    SettlementChecked(b, k, Tally(b.events, OpenIn(k)), |listing|);
  }

  /** Every listed event of a settled batch is settled, with a receipt of its amount and its own part of the fee; no other
      event changes. */
  lemma SettledReceipts(b: Books, k: nat, listing: seq<nat>, fee: Fee, proof: nat, now: int)
    requires Settles(b, k, listing, fee, proof, now)
    ensures var m, amounts, total := Finalize(b, k, listing, fee, proof, now).value, Amounts(b.events, listing), b.batches[k].total;
            && |m.events| == |b.events| && total > 0
            && (forall i :: 0 <= i < |listing| ==>
                  m.events[listing[i]]
                  == b.events[listing[i]].(status := EventSettled,
                                           receipt := Some(Receipt(k, amounts[i], FeePart(fee, amounts, total, i), fee.Known?,
                                                                   proof, now))))
            && (forall j :: 0 <= j < |b.events| && !(b.events[j].batch == k && IsOpen(b.events[j])) ==> m.events[j] == b.events[j])
  {
    var amounts, m := Amounts(b.events, listing), Finalize(b, k, listing, fee, proof, now).value;
    var shares := FinalizeRows(b, k, listing, fee, proof, now);
    ListedTotal(b, k, listing);
    SettledIssues(b, k, listing, shares, fee.Known?, proof, now);
    forall i | 0 <= i < |listing| ensures shares[i] == FeePart(fee, amounts, b.batches[k].total, i) {
      SharesAreParts(fee, amounts, i);
    }
    IssuedAre(b, k, listing, shares, fee.Known?, proof, now, m.events);
  }

  lemma IssuedAre(b: Books, k: nat, listing: seq<nat>, shares: seq<nat>, known: bool, proof: nat, now: int, later: seq<Event>)
    requires IsListing(b.events, k, listing)
    requires Issued(Conclude(b.events, k, EventSettled), later, k, listing, shares, known, proof, now)
    ensures |later| == |b.events|
    ensures forall i :: 0 <= i < |listing| ==>
              later[listing[i]]
              == b.events[listing[i]].(status := EventSettled,
                                       receipt := Some(Receipt(k, b.events[listing[i]].usage.amount, shares[i], known, proof, now)))
    ensures forall j :: 0 <= j < |b.events| && !(b.events[j].batch == k && IsOpen(b.events[j])) ==> later[j] == b.events[j]
  {
    var concluded := Conclude(b.events, k, EventSettled);
    forall i | 0 <= i < |listing|
      ensures later[listing[i]]
              == b.events[listing[i]].(status := EventSettled,
                                       receipt := Some(Receipt(k, b.events[listing[i]].usage.amount, shares[i], known, proof, now)))
    {
      var j := listing[i];
      assert later[j] == concluded[j].(receipt := later[j].receipt);
      assert later[listing[i]].receipt == Some(Receipt(k, concluded[listing[i]].usage.amount, shares[i], known, proof, now));
    }
    forall j | 0 <= j < |b.events| && !(b.events[j].batch == k && IsOpen(b.events[j])) ensures later[j] == b.events[j] {
      assert j !in listing;
      assert concluded[j] == b.events[j];
    }
  }

  lemma SettledIs(b: Books, k: nat, listing: seq<nat>, fee: Fee, proof: nat, now: int)
    requires Settles(b, k, listing, fee, proof, now)
    ensures b.batches[k].grant < |b.grants| && b.batches[k].session < |b.sessions|
    ensures var m, batch := Finalize(b, k, listing, fee, proof, now).value, b.batches[k];
            var g, s := b.grants[batch.grant], b.sessions[batch.session];
            && batch.total <= g.reserved && batch.total <= s.reserved
            && m == EndBooks(b, k, End(batch, Succeeded, now), SettleGrant(g, batch.total), SettleSession(s, batch.total),
                             m.events, m.funds)
            && Funding.Spend(b.funds, batch.session, batch.total, now) == Ok(m.funds)
  {
    var shares := FinalizeRows(b, k, listing, fee, proof, now);
    ListedTotal(b, k, listing);
  }

  /** The grant of a settled batch: the total is spent, and an active grant that spent its limit is depleted. */
  predicate GrantSpends(g: Grant, total: nat, after: Grant) {
    && total <= g.reserved
    && after == g.(reserved := g.reserved - total, spent := g.spent + total, status := after.status)
    && after.status == if g.status == Active && g.spent + total >= g.totalLimit then Depleted else g.status
  }

  /** The pass of a settled batch: the total is spent, and a pass that spent its limit expires. */
  predicate PassSpends(s: Session, total: nat, after: Session) {
    && total <= s.reserved
    && after == s.(reserved := s.reserved - total, spent := s.spent + total, status := after.status)
    && after.status == if s.spent + total >= s.limit then Expired else s.status
  }

  /** A settlement spends the batch's total on its grant, its pass and the pass's funding, and ends the batch. */
  lemma SettledMoves(b: Books, k: nat, listing: seq<nat>, fee: Fee, proof: nat, now: int)
    requires Settles(b, k, listing, fee, proof, now)
    ensures b.batches[k].grant < |b.grants| && b.batches[k].session < |b.sessions|
    ensures var m, batch := Finalize(b, k, listing, fee, proof, now).value, b.batches[k];
            && m.batches == b.batches[k := batch.(status := Succeeded, accepting := false, lease := None, leaseExpires := Some(now))]
            && |m.grants| == |b.grants| && m.grants == b.grants[batch.grant := m.grants[batch.grant]]
            && GrantSpends(b.grants[batch.grant], batch.total, m.grants[batch.grant])
            && |m.sessions| == |b.sessions| && m.sessions == b.sessions[batch.session := m.sessions[batch.session]]
            && PassSpends(b.sessions[batch.session], batch.total, m.sessions[batch.session])
            && Funding.Spend(b.funds, batch.session, batch.total, now) == Ok(m.funds)
            && m.windows == b.windows && m.nextLease == b.nextLease
  {
    SettledIs(b, k, listing, fee, proof, now);
    var m, batch := Finalize(b, k, listing, fee, proof, now).value, b.batches[k];
    assert m.batches == b.batches[k := End(batch, Succeeded, now)];
    assert m.grants[batch.grant] == SettleGrant(b.grants[batch.grant], batch.total);
    assert m.sessions[batch.session] == SettleSession(b.sessions[batch.session], batch.total);
  }

  lemma ReleasedIs(b: Books, k: nat, failed: bool, now: int)
    requires Inv(b) && k < |b.batches| && !IsTerminal(b.batches[k].status)
    ensures b.batches[k].grant < |b.grants| && b.batches[k].session < |b.sessions|
    ensures var batch := b.batches[k];
            var g, s := b.grants[batch.grant], b.sessions[batch.session];
            && batch.total <= g.reserved && batch.total <= s.reserved
            && Release(b, k, failed, now)
               == Ok(EndBooks(b, k, End(batch, if failed then BatchStatus.Failed else BatchStatus.Released, now),
                              g.(reserved := g.reserved - batch.total), s.(reserved := s.reserved - batch.total),
                              Conclude(b.events, k, if failed then EventFailed else EventReleased), b.funds))
  {
    ReleaseAlwaysCommits(b, k, failed, now);
    OpenIsReserved(b, k);
    OpenInBatch(b, k);
    assert BatchOk(b.batches[k], k, b.grants, b.events);
  }

  /** A release of a live batch gives its total back on grant and pass, ends its open events and itself as failed or
      released, and spends nothing. */
  lemma ReleasedMoves(b: Books, k: nat, failed: bool, now: int)
    requires Inv(b) && k < |b.batches| && !IsTerminal(b.batches[k].status)
    ensures Release(b, k, failed, now).Ok? && b.batches[k].grant < |b.grants| && b.batches[k].session < |b.sessions|
    ensures var m, batch := Release(b, k, failed, now).value, b.batches[k];
            var g, s := b.grants[batch.grant], b.sessions[batch.session];
            && batch.total <= g.reserved && batch.total <= s.reserved
            && m.batches == b.batches[k := batch.(status := if failed then BatchStatus.Failed else BatchStatus.Released,
                                                  accepting := false, lease := None, leaseExpires := Some(now))]
            && m.grants == b.grants[batch.grant := g.(reserved := g.reserved - batch.total)]
            && m.sessions == b.sessions[batch.session := s.(reserved := s.reserved - batch.total)]
            && m.funds == b.funds && m.windows == b.windows && m.nextLease == b.nextLease
            && |m.events| == |b.events|
            && forall j :: 0 <= j < |b.events| ==>
                 m.events[j] == if b.events[j].batch == k && IsOpen(b.events[j])
                                then b.events[j].(status := if failed then EventFailed else EventReleased) else b.events[j]
  {
    ReleasedIs(b, k, failed, now);
  }

  /** Releasing a batch that ended does nothing. */
  lemma ReleaseStays(b: Books, k: nat, failed: bool, now: int)
    requires k >= |b.batches| || b.batches[k].status in {Succeeded, BatchStatus.Failed, BatchStatus.Released}
    ensures Release(b, k, failed, now) == Ok(b)
  {}

  // The worker's writes.

  /** A claim takes a live batch that is due and not leased, for a minute, counts the attempt and stops its collecting. */
  lemma ClaimMoves(b: Books, k: nat, now: int)
    ensures var due := k < |b.batches| && b.batches[k].status !in {Succeeded, BatchStatus.Failed, BatchStatus.Released}
                       && b.batches[k].runAfter <= now
                       && (b.batches[k].leaseExpires.None? || b.batches[k].leaseExpires.value <= now);
            Claim(b, k, now)
            == if due
               then b.(batches := b.batches[k := b.batches[k].(status := Processing, accepting := false, lease := Some(b.nextLease),
                                                               leaseExpires := Some(now + 60_000),
                                                               attempts := b.batches[k].attempts + 1)],
                       nextLease := b.nextLease + 1)
               else b
  {}

  /** Marking and retrying write only under the caller's own lease; a retry waits longer after every attempt. */
  lemma LeasedWrites(b: Books, k: nat, lease: nat, attempts: nat, submitted: bool, now: int)
    ensures var mine := k < |b.batches| && b.batches[k].lease == Some(lease);
            && MarkSubmitted(b, k, lease)
               == (if mine then b.(batches := b.batches[k := b.batches[k].(submitted := true)]) else b)
            && Retry(b, k, lease, attempts, submitted, now)
               == (if mine
                   then b.(batches := b.batches[k := b.batches[k].(status := if submitted then Uncertain else Retrying,
                                                                   runAfter := now + Backoff(attempts), lease := None,
                                                                   leaseExpires := Some(now))])
                   else b)
  {}

  /** The wait doubles from one second after the first attempt, up to a minute. */
  lemma BackoffDoubles(attempts: nat)
    ensures Backoff(0) == Backoff(1) == 1000
    ensures attempts >= 1 ==> Backoff(attempts + 1) == if 2 * Backoff(attempts) <= 60_000 then 2 * Backoff(attempts) else 60_000
  {}

  // Steps.

  /** A step of a transaction keeps what commits, and leaves everything as it was on a throw; a finalization works on the open
      events of its batch, listed by acceptance time. */
  lemma TransactionsAre(b: Books, g: Grant, allowed: bool, owner: nat, u: Usage, k: nat, failed: bool, listing: seq<nat>, fee: Fee,
                        proof: nat, now: int)
    ensures Step(b, AddGrant(g, allowed), now) == match CreateGrant(b, g, allowed, now) case Ok(m) => m case Err(_) => b
    ensures Step(b, DoSubmit(owner, u), now) == match Submit(b, owner, u, now) case Ok(done) => done.0 case Err(_) => b
    ensures Step(b, DoRelease(k, failed), now) == match Release(b, k, failed, now) case Ok(m) => m case Err(_) => b
    ensures IsListing(b.events, k, listing) ==>
              Step(b, DoFinalize(k, listing, fee, proof), now)
              == match Finalize(b, k, listing, fee, proof, now) case Ok(m) => m case Err(_) => b
    ensures !IsListing(b.events, k, listing) ==> Step(b, DoFinalize(k, listing, fee, proof), now) == b
  {}

  /** The worker's writes, and what other services do: passes are opened unused and administered, grants revoked, funding moved. */
  lemma WritesAre(b: Books, s: Session, i: nat, status: SessionStatus, extra: nat, g: nat, owner: nat, app: nat, op: Funding.Op, now: int)
    ensures var m := Step(b, AddSession(s), now);
            && m == b.(sessions := m.sessions) && |m.sessions| == |b.sessions| + 1 && m.sessions[..|b.sessions|] == b.sessions
            && m.sessions[|b.sessions|] == s.(spent := 0, reserved := 0)
    ensures var m := Step(b, Administer(i, status, extra), now);
            && m == b.(sessions := m.sessions) && |m.sessions| == |b.sessions|
            && (forall j :: 0 <= j < |b.sessions| && j != i ==> m.sessions[j] == b.sessions[j])
            && (i < |b.sessions| ==> m.sessions[i] == b.sessions[i].(status := status, limit := b.sessions[i].limit + extra))
    ensures Step(b, DoRevoke(g, owner, app), now) == Revoke(b, g, owner, app)
    ensures Step(b, Fund(op), now) == b.(funds := Funding.Step(b.funds, op, now))
  {}

  lemma WorkerWritesAre(b: Books, k: nat, lease: nat, attempts: nat, submitted: bool, now: int)
    ensures Step(b, DoClaim(k), now) == Claim(b, k, now)
    ensures Step(b, DoMarkSubmitted(k, lease), now) == MarkSubmitted(b, k, lease)
    ensures Step(b, DoRetry(k, lease, attempts, submitted), now) == Retry(b, k, lease, attempts, submitted, now)
    ensures var m := Step(b, DoSettling(k), now);
            && m == b.(events := m.events) && |m.events| == |b.events|
            && forall j :: 0 <= j < |b.events| ==>
                 m.events[j] == if b.events[j].batch == k && b.events[j].status == EventReserved
                                then b.events[j].(status := EventSettling) else b.events[j]
  {}
}
