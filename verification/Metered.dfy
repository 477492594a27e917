/** Metered usage: grants, batches and events that reserve and settle money on a pass
    (src/services/meteredPayment.service.ts, src/services/meteredPaymentWorker.service.ts). Each function is one
    transaction or one conditional update; rows are identified by their position. */
module Metered {
  import opened Wrappers
  import opened Money
  import opened Tallies
  import opened Receipts
  import Funding

  const BATCH_LEASE_MS: int := 60_000
  const MAX_ATTEMPTS: nat := 5

  datatype SessionStatus = Open | Paused | Closed | Withdrawn | Expired

  datatype Session = Session(
    owner: nat,
    status: SessionStatus,
    app: Option<nat>,
    grantOwner: Option<nat>,
    mayCharge: bool,
    autoCharges: bool,
    expiryAt: Option<int>,
    limit: nat,
    spent: nat,
    reserved: nat)

  datatype GrantStatus = Active | Revoked | Depleted

  datatype Grant = Grant(
    owner: nat,
    app: nat,
    session: nat,
    status: GrantStatus,
    maxPerEvent: nat,
    totalLimit: nat,
    reserved: nat,
    spent: nat,
    rateCount: nat,
    windowSeconds: nat,
    threshold: nat,
    maxBatch: nat,
    maxEvents: nat,
    delay: nat,
    expiresAt: int)

  datatype BatchStatus = Collecting | Queued | Processing | Uncertain | Retrying | Succeeded | Failed | Released

  datatype Batch = Batch(
    grant: nat,
    session: nat,
    accepting: bool,
    status: BatchStatus,
    total: nat,
    count: nat,
    runAfter: int,
    attempts: nat,
    lease: Option<nat>,
    leaseExpires: Option<int>,
    submitted: bool)

  /** A usage request; it is also what the request fingerprint commits to. */
  datatype Usage = Usage(app: nat, grant: nat, externalId: string, amount: nat, kind: string, policy: string)

  datatype EventStatus = EventReserved | EventSettling | EventSettled | EventReleased | EventFailed

  datatype Event = Event(usage: Usage, batch: nat, status: EventStatus, acceptedAt: int, receipt: Option<Receipt>)

  datatype Books = Books(
    sessions: seq<Session>,
    grants: seq<Grant>,
    batches: seq<Batch>,
    events: seq<Event>,
    windows: map<(nat, int), nat>,
    funds: Funding.Ledger,
    nextLease: nat)

  datatype Rejection =
    | AmountInvalid | LegacyLimit | IdempotencyConflict
    | GrantNotFound | GrantInactive | GrantExpired | PerEventExceeded | GrantLimitExceeded
    | SessionNotFound | AppGrantInvalid | SessionLimitExceeded | RateLimited
    | LimitsInvalid | ExpiryInvalid
    | OwnerStateMissing | CountersInconsistent | TotalMismatch | FeeInvalid | ReceiptConflict
    | Unfunded(cause: Funding.FundingError)

  predicate IsOpen(e: Event) {
    e.status == EventReserved || e.status == EventSettling
  }

  predicate IsTerminal(s: BatchStatus) {
    s == Succeeded || s == Failed || s == Released
  }

  // Weights.

  function OpenIn(k: nat): Event -> nat {
    (e: Event) => if e.batch == k && IsOpen(e) then e.usage.amount else 0
  }

  function Usages(events: seq<Event>): (amounts: seq<nat>)
    ensures |amounts| == |events| && forall i :: 0 <= i < |events| ==> amounts[i] == events[i].usage.amount
  {
    seq(|events|, i requires 0 <= i < |events| => events[i].usage.amount)
  }

  // Grants.

  /** The limits a grant is created with. */
  predicate LimitsOk(g: Grant) {
    && g.maxPerEvent > 0 && g.totalLimit > 0 && g.threshold > 0 && g.maxBatch > 0
    && g.maxPerEvent <= g.totalLimit && g.maxPerEvent <= g.maxBatch && g.threshold <= g.maxBatch
    && g.rateCount >= 1 && g.windowSeconds >= 1 && g.maxEvents >= 1
  }

  predicate OwnerBound(s: Session, owner: nat, app: nat, now: int) {
    && s.status == Open && s.app == Some(app) && s.grantOwner == Some(owner)
    && s.mayCharge && s.autoCharges && (s.expiryAt.Some? ==> now < s.expiryAt.value)
  }

  function CreateGrant(b: Books, g: Grant, allowed: bool, now: int): (r: Result<Books, Rejection>) {
    var _ :- Check(LimitsOk(g), LimitsInvalid);
    var _ :- Check(now < g.expiresAt, ExpiryInvalid);
    var _ :- Check(g.session < |b.sessions| && b.sessions[g.session].owner == g.owner, SessionNotFound);
    var session := b.sessions[g.session];
    var _ :- Check(OwnerBound(session, g.owner, g.app, now), AppGrantInvalid);
    var _ :- Check(session.expiryAt.Some? ==> g.expiresAt <= session.expiryAt.value, ExpiryInvalid);
    var _ :- Check(g.totalLimit <= session.limit, LimitsInvalid);
    var _ :- Check(allowed, AppGrantInvalid);
    Ok(b.(grants := b.grants + [g.(status := Active, reserved := 0, spent := 0)]))
  }

  /** Stops new events on an active grant; releasing its unsubmitted batches are separate transactions. */
  function Revoke(b: Books, g: nat, owner: nat, app: nat): Books {
    if g < |b.grants| && b.grants[g].owner == owner && b.grants[g].app == app && b.grants[g].status == Active
    then b.(grants := b.grants[g := b.grants[g].(status := Revoked)]) else b
  }

  // Accepting an event.

  function WindowStart(time: int, windowSeconds: nat): int
    requires windowSeconds >= 1
  {
    time / (windowSeconds * 1000) * (windowSeconds * 1000)
  }

  function Admitted(b: Books, g: nat, start: int): nat {
    if (g, start) in b.windows then b.windows[(g, start)] else 0
  }

  function FindEvent(events: seq<Event>, app: nat, externalId: string): (k: Option<nat>)
    ensures k.Some? ==> k.value < |events| && events[k.value].usage.app == app && events[k.value].usage.externalId == externalId
    ensures k.None? ==> forall j :: 0 <= j < |events| ==> !(events[j].usage.app == app && events[j].usage.externalId == externalId)
  {
    if events == [] then None
    else
      var last := events[|events| - 1];
      if last.usage.app == app && last.usage.externalId == externalId then Some(|events| - 1)
      else FindEvent(events[..|events| - 1], app, externalId)
  }

  function FindAccepting(batches: seq<Batch>, g: nat): (k: Option<nat>)
    ensures k.Some? ==> k.value < |batches| && batches[k.value].grant == g && batches[k.value].accepting
    ensures k.None? ==> forall j :: 0 <= j < |batches| ==> !(batches[j].grant == g && batches[j].accepting)
  {
    if batches == [] then None
    else if batches[|batches| - 1].grant == g && batches[|batches| - 1].accepting then Some(|batches| - 1)
    else FindAccepting(batches[..|batches| - 1], g)
  }

  /** The guards inside the accepting transaction, in order. */
  function Admit(b: Books, owner: nat, u: Usage, now: int): (r: Result<(), Rejection>) {
    var _ :- Check(u.grant < |b.grants| && b.grants[u.grant].app == u.app && b.grants[u.grant].owner == owner, GrantNotFound);
    var g := b.grants[u.grant];
    var _ :- Check(g.status == Active, GrantInactive);
    var _ :- Check(now < g.expiresAt, GrantExpired);
    var _ :- Check(u.amount <= g.maxPerEvent, PerEventExceeded);
    var _ :- Check(u.amount <= g.totalLimit - g.spent - g.reserved, GrantLimitExceeded);
    var _ :- Check(g.session < |b.sessions| && b.sessions[g.session].owner == owner, SessionNotFound);
    var s := b.sessions[g.session];
    var _ :- Check(OwnerBound(s, owner, u.app, now), AppGrantInvalid);
    var _ :- Check(s.spent + s.reserved + u.amount <= s.limit, SessionLimitExceeded);
    var _ :- Check(g.windowSeconds >= 1 && Admitted(b, u.grant, WindowStart(now, g.windowSeconds)) < g.rateCount, RateLimited);
    var _ :- Check(s.reserved + u.amount <= MAX_SAFE, LegacyLimit);
    Ok(())
  }

  function Close(batch: Batch, now: int): Batch {
    batch.(accepting := false, status := Queued, runAfter := now)
  }

  function NewBatch(u: Usage, g: Grant, now: int): Batch {
    var immediate := u.amount >= g.threshold;
    Batch(u.grant, g.session, !immediate, if immediate then Queued else Collecting, 0, 0,
          if immediate then now else now + g.delay, 0, None, None, false)
  }

  /** A collecting batch that must be closed before this amount. */
  predicate MustClose(batch: Batch, g: Grant, amount: nat) {
    batch.count >= g.maxEvents || batch.total + amount > g.maxBatch
  }

  function AddTo(batch: Batch, g: Grant, amount: nat, now: int): Batch {
    var added := batch.(total := batch.total + amount, count := batch.count + 1);
    if amount >= g.threshold || g.delay == 0 || added.total >= g.threshold || added.total >= g.maxBatch
       || added.count >= g.maxEvents
    then Close(added, now) else added
  }

  /** The batches with room made for the event, and the position of the one it joins. */
  function MakeRoom(batches: seq<Batch>, u: Usage, g: Grant, now: int): (r: (seq<Batch>, nat))
    ensures r.1 < |r.0|
  {
    var found := if u.amount >= g.threshold then None else FindAccepting(batches, u.grant);
    if found.Some? && !MustClose(batches[found.value], g, u.amount) then (batches, found.value)
    else
      var closed := if found.Some? then batches[found.value := Close(batches[found.value], now)] else batches;
      (closed + [NewBatch(u, g, now)], |batches|)
  }

  function Accept(b: Books, u: Usage, now: int): Books
    requires u.grant < |b.grants| && b.grants[u.grant].session < |b.sessions| && b.grants[u.grant].windowSeconds >= 1
  {
    var g := b.grants[u.grant];
    var s := b.sessions[g.session];
    var start := WindowStart(now, g.windowSeconds);
    var (room, k) := MakeRoom(b.batches, u, g, now);
    b.(sessions := b.sessions[g.session := s.(reserved := s.reserved + u.amount)],
       grants := b.grants[u.grant := g.(reserved := g.reserved + u.amount)],
       batches := room[k := AddTo(room[k], g, u.amount, now)],
       events := b.events + [Event(u, k, EventReserved, now, None)],
       windows := b.windows[(u.grant, start) := Admitted(b, u.grant, start) + 1])
  }

  /** Submits a usage event: an exact replay returns the stored event, a different payload under the same
      external id conflicts, and anything else is accepted or rejected as a whole. */
  function Submit(b: Books, owner: nat, u: Usage, now: int): (r: Result<(Books, nat), Rejection>) {
    var _ :- Check(u.amount > 0, AmountInvalid);
    var _ :- Check(u.amount <= MAX_SAFE, LegacyLimit);
    match FindEvent(b.events, u.app, u.externalId)
    case Some(k) => if b.events[k].usage == u then Ok((b, k)) else Err(IdempotencyConflict)
    case None =>
      var _ :- Admit(b, owner, u, now);
      Ok((Accept(b, u, now), |b.events|))
  }

  // The worker's updates.

  predicate Claimable(batch: Batch, now: int) {
    !IsTerminal(batch.status) && batch.runAfter <= now && (batch.leaseExpires.Some? ==> batch.leaseExpires.value <= now)
  }

  function Claim(b: Books, k: nat, now: int): Books {
    if k < |b.batches| && Claimable(b.batches[k], now)
    then b.(batches := b.batches[k := b.batches[k].(
                                   status := Processing,
                                   accepting := false,
                                   lease := Some(b.nextLease),
                                   leaseExpires := Some(now + BATCH_LEASE_MS),
                                   attempts := b.batches[k].attempts + 1)],
            nextLease := b.nextLease + 1)
    else b
  }

  function MarkSettling(events: seq<Event>, k: nat): (r: seq<Event>)
    ensures |r| == |events|
    ensures forall i :: 0 <= i < |events| ==>
              r[i] == if events[i].batch == k && events[i].status == EventReserved
                      then events[i].(status := EventSettling) else events[i]
  {
    seq(|events|, i requires 0 <= i < |events| =>
      if events[i].batch == k && events[i].status == EventReserved then events[i].(status := EventSettling) else events[i])
  }

  function MarkSubmitted(b: Books, k: nat, lease: nat): Books {
    if k < |b.batches| && b.batches[k].lease == Some(lease)
    then b.(batches := b.batches[k := b.batches[k].(submitted := true)]) else b
  }

  function Backoff(attempts: nat): (ms: nat)
    ensures 1000 <= ms <= 60_000
    ensures attempts <= 1 ==> ms == 1000
    ensures attempts >= 7 ==> ms == 60_000
  {
    match attempts
    case 0 => 1000
    case 1 => 1000
    case 2 => 2000
    case 3 => 4000
    case 4 => 8000
    case 5 => 16_000
    case 6 => 32_000
    case _ => 60_000
  }

  function Retry(b: Books, k: nat, lease: nat, attempts: nat, submitted: bool, now: int): Books {
    if k < |b.batches| && b.batches[k].lease == Some(lease)
    then b.(batches := b.batches[k := b.batches[k].(
                                   status := if submitted then Uncertain else Retrying,
                                   runAfter := now + Backoff(attempts),
                                   leaseExpires := Some(now),
                                   lease := None)])
    else b
  }

  /** Every open event of a batch takes one status. */
  function Conclude(events: seq<Event>, k: nat, status: EventStatus): (r: seq<Event>)
    ensures |r| == |events|
    ensures forall i :: 0 <= i < |events| ==>
              r[i] == if events[i].batch == k && IsOpen(events[i]) then events[i].(status := status) else events[i]
  {
    seq(|events|, i requires 0 <= i < |events| =>
      if events[i].batch == k && IsOpen(events[i]) then events[i].(status := status) else events[i])
  }

  function End(batch: Batch, status: BatchStatus, now: int): Batch {
    batch.(status := status, accepting := false, lease := None, leaseExpires := Some(now))
  }

  function Release(b: Books, k: nat, failed: bool, now: int): (r: Result<Books, Rejection>) {
    if k >= |b.batches| || IsTerminal(b.batches[k].status) then Ok(b)
    else
      var batch := b.batches[k];
      var total := Tally(b.events, OpenIn(k));
      var _ :- Check(batch.grant < |b.grants| && batch.session < |b.sessions|, OwnerStateMissing);
      var g, s := b.grants[batch.grant], b.sessions[batch.session];
      var _ :- Check(total <= g.reserved && total <= s.reserved, CountersInconsistent);
      var _ :- Check(s.reserved - total <= MAX_SAFE, LegacyLimit);
      Ok(b.(sessions := b.sessions[batch.session := s.(reserved := s.reserved - total)],
            grants := b.grants[batch.grant := g.(reserved := g.reserved - total)],
            batches := b.batches[k := End(batch, if failed then Failed else Released, now)],
            events := Conclude(b.events, k, if failed then EventFailed else EventReleased)))
  }

  datatype Fee = Unknown | Malformed | Known(amount: nat)

  /** A listing of the open events of a batch: each of them once, by acceptance time. */
  predicate IsListing(events: seq<Event>, k: nat, listing: seq<nat>) {
    && (forall i :: 0 <= i < |listing| ==> listing[i] < |events|)
    && Distinct(listing)
    && (forall j :: 0 <= j < |events| && events[j].batch == k && IsOpen(events[j]) ==> j in listing)
    && (forall i :: 0 <= i < |listing| ==> events[listing[i]].batch == k && IsOpen(events[listing[i]]))
    && (forall i, j :: 0 <= i < j < |listing| ==> events[listing[i]].acceptedAt <= events[listing[j]].acceptedAt)
  }

  /** The fee share of each listed event, zero when the fee is not known. */
  function FeeShares(fee: Fee, amounts: seq<nat>): (r: Result<seq<nat>, Rejection>)
    ensures r.Ok? ==> |r.value| == |amounts|
  {
    match fee
    case Unknown => Ok(seq(|amounts|, i => 0))
    case Malformed => Err(FeeInvalid)
    case Known(f) =>
      var shares := Shares(f, amounts);
      if shares.Err? || exists i :: 0 <= i < |shares.value| && shares.value[i] > MAX_ATOMIC then Err(FeeInvalid)
      else Ok(shares.value)
  }

  /** The receipt of every listed event is issued in turn; a source that already has a different one stops it all. */
  function IssueReceipts(events: seq<Event>, k: nat, listing: seq<nat>, shares: seq<nat>, known: bool, proof: nat, now: int)
    : (r: Result<seq<Event>, Rejection>)
    requires |shares| == |listing| && forall i :: 0 <= i < |listing| ==> listing[i] < |events|
    ensures r.Ok? ==> |r.value| == |events|
  {
    if listing == [] then Ok(events)
    else
      var n := |listing| - 1;
      var before :- IssueReceipts(events, k, listing[..n], shares[..n], known, proof, now);
      var e := before[listing[n]];
      var receipt := Receipt(k, e.usage.amount, shares[n], known, proof, now);
      var _ :- Check(Issue(e.receipt, receipt).Ok?, ReceiptConflict);
      Ok(before[listing[n] := e.(receipt := Some(receipt))])
  }

  function Funded(r: Result<Funding.Ledger, Funding.FundingError>): (f: Result<Funding.Ledger, Rejection>) {
    if r.Ok? then Ok(r.value) else Err(Unfunded(r.error))
  }

  /** The guards that finalizing shares with nothing else: totals match, counters cover, mirrors stay safe. */
  function CheckSettlement(b: Books, k: nat, total: nat, count: nat): (r: Result<(), Rejection>)
    requires k < |b.batches|
  {
    var batch := b.batches[k];
    var _ :- Check(total == batch.total && count == batch.count, TotalMismatch);
    var _ :- Check(batch.grant < |b.grants| && batch.session < |b.sessions|, OwnerStateMissing);
    var g, s := b.grants[batch.grant], b.sessions[batch.session];
    var _ :- Check(total <= g.reserved && total <= s.reserved, CountersInconsistent);
    var _ :- Check(s.reserved - total <= MAX_SAFE && s.spent + total <= MAX_SAFE && total <= MAX_SAFE, LegacyLimit);
    Ok(())
  }

  function SettleGrant(g: Grant, total: nat): Grant
    requires total <= g.reserved
  {
    g.(reserved := g.reserved - total,
       spent := g.spent + total,
       status := if g.spent + total >= g.totalLimit && g.status == Active then Depleted else g.status)
  }

  function SettleSession(s: Session, total: nat): Session
    requires total <= s.reserved
  {
    s.(reserved := s.reserved - total,
       spent := s.spent + total,
       status := if s.spent + total >= s.limit then Expired else s.status)
  }

  /** Settles a batch: its money moves from reserved to spent on the grant, the pass and the funding allocation, its
      events settle and each gets its receipt, all in one transaction. */
  function Finalize(b: Books, k: nat, listing: seq<nat>, fee: Fee, proof: nat, now: int): (r: Result<Books, Rejection>)
    requires forall i :: 0 <= i < |listing| ==> listing[i] < |b.events|
  {
    if k >= |b.batches| || b.batches[k].status == Succeeded then Ok(b)
    else
      var batch, amounts := b.batches[k], Usages(At(b.events, listing));
      var total := Tally(amounts, Self());
      var _ :- CheckSettlement(b, k, total, |listing|);
      var funds :- Funded(Funding.Spend(b.funds, batch.session, total, now));
      var shares :- FeeShares(fee, amounts);
      var events :- IssueReceipts(Conclude(b.events, k, EventSettled), k, listing, shares, fee.Known?, proof, now);
      Ok(b.(sessions := b.sessions[batch.session := SettleSession(b.sessions[batch.session], total)],
            grants := b.grants[batch.grant := SettleGrant(b.grants[batch.grant], total)],
            batches := b.batches[k := End(batch, Succeeded, now)],
            events := events,
            funds := funds))
  }

  // Runs.

  datatype Op =
    | AddSession(session: Session)
    | Administer(i: nat, status: SessionStatus, extra: nat)
    | AddGrant(grant: Grant, allowed: bool)
    | DoRevoke(g: nat, owner: nat, app: nat)
    | DoSubmit(owner: nat, usage: Usage)
    | DoClaim(k: nat)
    | DoSettling(k: nat)
    | DoMarkSubmitted(k: nat, lease: nat)
    | DoRetry(k: nat, lease: nat, attempts: nat, submitted: bool)
    | DoRelease(k: nat, failed: bool)
    | DoFinalize(k: nat, listing: seq<nat>, fee: Fee, proof: nat)
    | Fund(op: Funding.Op)

  function OrUnchanged(b: Books, r: Result<Books, Rejection>): Books {
    if r.Ok? then r.value else b
  }

  /** One atomic step; a throw changes nothing, and a finalization is offered only what the query really lists. */
  function Step(b: Books, op: Op, now: int): Books {
    match op
    case AddSession(s) => b.(sessions := b.sessions + [s.(spent := 0, reserved := 0)])
    case Administer(i, status, extra) =>
      if i < |b.sessions|
      then b.(sessions := b.sessions[i := b.sessions[i].(status := status, limit := b.sessions[i].limit + extra)]) else b
    case AddGrant(g, allowed) => OrUnchanged(b, CreateGrant(b, g, allowed, now))
    case DoRevoke(g, owner, app) => Revoke(b, g, owner, app)
    case DoSubmit(owner, u) => if Submit(b, owner, u, now).Ok? then Submit(b, owner, u, now).value.0 else b
    case DoClaim(k) => Claim(b, k, now)
    case DoSettling(k) => b.(events := MarkSettling(b.events, k))
    case DoMarkSubmitted(k, lease) => MarkSubmitted(b, k, lease)
    case DoRetry(k, lease, attempts, submitted) => Retry(b, k, lease, attempts, submitted, now)
    case DoRelease(k, failed) => OrUnchanged(b, Release(b, k, failed, now))
    case DoFinalize(k, listing, fee, proof) =>
      if IsListing(b.events, k, listing) then OrUnchanged(b, Finalize(b, k, listing, fee, proof, now)) else b
    case Fund(fop) => b.(funds := Funding.Step(b.funds, fop, now))
  }

  const EMPTY: Books := Books([], [], [], [], map[], Funding.EMPTY, 0)

  function Run(b: Books, ops: seq<(Op, int)>): Books {
    if ops == [] then b else Step(Run(b, ops[..|ops| - 1]), ops[|ops| - 1].0, ops[|ops| - 1].1)
  }
}
