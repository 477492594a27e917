/** The reserve, debit or release protocol of direct charges (src/services/chargeReservation.service.ts): pass
    counters, per-day counters, attempts and the funding they spend. Each function is one transaction or one
    conditional update, and returns what it commits or the error it throws. */
module Charges {
  import opened Wrappers
  import opened Tallies
  import opened Receipts
  import Funding

  const DAY_MS: int := 86_400_000
  const EXECUTION_LEASE_MS: int := 60_000

  datatype PassStatus = Active | Paused | Settled | Revoked | Expired

  datatype Pass = Pass(owner: nat, status: PassStatus, idle: bool, singleUse: bool, limit: nat, spent: nat, reserved: nat)

  /** `seed` remembers what `spent` started from when the counter was created. */
  datatype DayCounter = DayCounter(session: nat, day: int, seed: nat, spent: nat, reserved: nat)

  datatype AttemptStatus = Pending | Uncertain | Succeeded | Failed

  datatype ReserveStatus = Reserved | Debited | Released

  datatype ProviderStatus = NotStarted | Submitted | Doubtful | Paid | Refused

  /** `day` is missing on rows written before reservations existed. */
  datatype Attempt = Attempt(
    session: nat,
    key: string,
    amount: nat,
    day: Option<int>,
    createdDay: int,
    status: AttemptStatus,
    reserve: ReserveStatus,
    provider: ProviderStatus,
    lease: nat,
    leaseExpires: int,
    specialized: bool,
    proof: nat,
    finalizedAt: int,
    receipt: Option<Receipt>)

  datatype Books = Books(passes: seq<Pass>, days: seq<DayCounter>, attempts: seq<Attempt>, funds: Funding.Ledger)

  datatype ChargeError =
    | SessionRejected | DailyRejected | NotReleasable | CountersInconsistent | NotFound | NotReady
    | Unfunded(cause: Funding.FundingError) | ReceiptReused

  datatype Request = Request(
    session: nat,
    owner: nat,
    key: string,
    amount: nat,
    dailyLimit: nat,
    lease: nat,
    specialized: bool,
    matches: bool,
    createdAt: int)

  function DayOf(time: int): int {
    time / DAY_MS
  }

  // Weights.

  function Held(a: Attempt): nat {
    if a.day.Some? && a.reserve == Reserved then a.amount else 0
  }

  function Taken(a: Attempt): nat {
    if a.day.Some? && a.reserve == Debited then a.amount else 0
  }

  function HeldOn(i: nat): Attempt -> nat {
    (a: Attempt) => if a.session == i then Held(a) else 0
  }

  function TakenOn(i: nat): Attempt -> nat {
    (a: Attempt) => if a.session == i then Taken(a) else 0
  }

  function HeldOnDay(i: nat, d: int): Attempt -> nat {
    (a: Attempt) => if a.session == i && a.day == Some(d) then Held(a) else 0
  }

  function TakenOnDay(i: nat, d: int): Attempt -> nat {
    (a: Attempt) => if a.session == i && a.day == Some(d) then Taken(a) else 0
  }

  /** What the daily counter starts from: attempts already succeeded that were stored on that day. */
  function HistoryOn(i: nat, d: int): Attempt -> nat {
    (a: Attempt) => if a.session == i && a.createdDay == d && a.status == Succeeded then a.amount else 0
  }

  // Lookups.

  function FindAttempt(attempts: seq<Attempt>, session: nat, key: string): (k: Option<nat>)
    ensures k.Some? ==> k.value < |attempts| && attempts[k.value].session == session && attempts[k.value].key == key
    ensures k.None? ==> forall j :: 0 <= j < |attempts| ==> !(attempts[j].session == session && attempts[j].key == key)
  {
    if attempts == [] then None
    else if attempts[|attempts| - 1].session == session && attempts[|attempts| - 1].key == key then Some(|attempts| - 1)
    else FindAttempt(attempts[..|attempts| - 1], session, key)
  }

  function FindDay(days: seq<DayCounter>, session: nat, day: int): (c: Option<nat>)
    ensures c.Some? ==> c.value < |days| && days[c.value].session == session && days[c.value].day == day
    ensures c.None? ==> forall j :: 0 <= j < |days| ==> !(days[j].session == session && days[j].day == day)
  {
    if days == [] then None
    else if days[|days| - 1].session == session && days[|days| - 1].day == day then Some(|days| - 1)
    else FindDay(days[..|days| - 1], session, day)
  }

  // Transactions.

  predicate PassAccepts(p: Pass, r: Request) {
    && p.owner == r.owner && p.status == Active && r.matches && p.idle
    && (p.singleUse ==> p.spent + p.reserved == 0)
    && p.spent + p.reserved + r.amount <= p.limit
  }

  /** Upserts the counter of the day, seeded from history when it is new. */
  function WithDay(b: Books, session: nat, day: int): (days: seq<DayCounter>) {
    if FindDay(b.days, session, day).Some? then b.days
    else
      var seed := Tally(b.attempts, HistoryOn(session, day));
      b.days + [DayCounter(session, day, seed, seed, 0)]
  }

  function NewAttempt(r: Request, now: int): Attempt {
    Attempt(r.session, r.key, r.amount, Some(DayOf(now)), DayOf(r.createdAt), Pending, Reserved, NotStarted,
            r.lease, now + EXECUTION_LEASE_MS, r.specialized, 0, 0, None)
  }

  function Reserve(b: Books, r: Request, now: int): (result: Result<Books, ChargeError>) {
    if FindAttempt(b.attempts, r.session, r.key).Some? then Ok(b)
    else
      var days := WithDay(b, r.session, DayOf(now));
      var _ :- Check(r.session < |b.passes| && PassAccepts(b.passes[r.session], r), SessionRejected);
      var c := FindDay(days, r.session, DayOf(now)).value;
      var _ :- Check(days[c].spent + days[c].reserved + r.amount <= r.dailyLimit, DailyRejected);
      var pass := b.passes[r.session];
      Ok(b.(passes := b.passes[r.session := pass.(reserved := pass.reserved + r.amount)],
            days := days[c := days[c].(reserved := days[c].reserved + r.amount)],
            attempts := b.attempts + [NewAttempt(r, now)]))
  }

  predicate Unsettled(a: Attempt) {
    (a.status == Pending || a.status == Uncertain) && a.reserve == Reserved
  }

  function Claim(a: Attempt, lease: nat, now: int): Attempt {
    if a.status == Pending && a.reserve == Reserved && a.provider == NotStarted && a.leaseExpires <= now
    then a.(lease := lease, leaseExpires := now + EXECUTION_LEASE_MS) else a
  }

  function MarkSubmitted(a: Attempt, lease: nat): Attempt {
    if a.lease == lease && a.status == Pending && a.reserve == Reserved && a.provider == NotStarted
    then a.(provider := Submitted) else a
  }

  function MarkSucceeded(a: Attempt, proof: nat): Attempt {
    if Unsettled(a) then a.(provider := Paid, proof := proof) else a
  }

  function MarkUncertain(a: Attempt): Attempt {
    if Unsettled(a) then a.(status := Uncertain, provider := Doubtful) else a
  }

  /** The guards of the two counter updates that end a reservation. */
  predicate CountersHold(b: Books, a: Attempt)
    requires a.day.Some?
  {
    && a.session < |b.passes| && a.amount <= b.passes[a.session].reserved
    && var c := FindDay(b.days, a.session, a.day.value);
       c.Some? && a.amount <= b.days[c.value].reserved
  }

  function Release(b: Books, k: nat, now: int): (result: Result<Books, ChargeError>) {
    if k >= |b.attempts| || b.attempts[k].reserve == Released || b.attempts[k].status == Failed then Ok(b)
    else
      var a := b.attempts[k];
      var _ :- Check(a.reserve == Reserved && a.day.Some?, NotReleasable);
      var _ :- Check(CountersHold(b, a), CountersInconsistent);
      var pass, c := b.passes[a.session], FindDay(b.days, a.session, a.day.value).value;
      Ok(b.(passes := b.passes[a.session := pass.(reserved := pass.reserved - a.amount)],
            days := b.days[c := b.days[c].(reserved := b.days[c].reserved - a.amount)],
            attempts := b.attempts[k := a.(status := Failed, reserve := Released, provider := Refused, leaseExpires := now)]))
  }

  function DirectReceipt(k: nat, a: Attempt): Receipt {
    Receipt(k, a.amount, 0, false, a.proof, a.finalizedAt)
  }

  /** The attempt with its receipt issued, unless another workflow issues one for it. */
  function Receipted(k: nat, a: Attempt): (r: Result<Attempt, ChargeError>) {
    if a.specialized then Ok(a)
    else if Issue(a.receipt, DirectReceipt(k, a)).Err? then Err(ReceiptReused)
    else Ok(a.(receipt := Some(DirectReceipt(k, a))))
  }

  function Funded(r: Result<Funding.Ledger, Funding.FundingError>): (f: Result<Funding.Ledger, ChargeError>) {
    if r.Ok? then Ok(r.value) else Err(Unfunded(r.error))
  }

  /** Debits a paid attempt: both counters, the funding allocation (released at once on a single-use pass), the
      attempt and its receipt move in one transaction. */
  function Debit(b: Books, k: nat, now: int): (result: Result<Books, ChargeError>)
    requires k < |b.attempts|
  {
    var a := b.attempts[k];
    var _ :- Check(a.provider == Paid && a.reserve == Reserved && a.day.Some?, NotReady);
    var _ :- Check(CountersHold(b, a), CountersInconsistent);
    var pass, c := b.passes[a.session], FindDay(b.days, a.session, a.day.value).value;
    var spent :- Funded(Funding.Spend(b.funds, a.session, a.amount, now));
    var funds :- if pass.singleUse then Funded(Funding.Release(spent, a.session, now)) else Ok(spent);
    var receipted :- Receipted(k, a.(status := Succeeded, reserve := Debited, finalizedAt := now, leaseExpires := now));
    Ok(Books(b.passes[a.session := pass.(reserved := pass.reserved - a.amount, spent := pass.spent + a.amount)],
             b.days[c := b.days[c].(reserved := b.days[c].reserved - a.amount, spent := b.days[c].spent + a.amount)],
             b.attempts[k := receipted],
             funds))
  }

  function Finalize(b: Books, k: nat, now: int): (result: Result<Books, ChargeError>) {
    var _ :- Check(k < |b.attempts|, NotFound);
    var a := b.attempts[k];
    if a.status == Succeeded && a.reserve == Debited then
      var receipted :- Receipted(k, a);
      Ok(b.(attempts := b.attempts[k := receipted]))
    else Debit(b, k, now)
  }

  // Runs.

  datatype Op =
    | DoReserve(request: Request)
    | DoClaim(k: nat, lease: nat)
    | DoSubmit(k: nat, lease: nat)
    | DoSucceed(k: nat, proof: nat)
    | DoDoubt(k: nat)
    | DoRelease(k: nat)
    | DoFinalize(k: nat)
    | AddPass(pass: Pass)
    | Administer(i: nat, status: PassStatus, idle: bool, extra: nat)
    | Fund(op: Funding.Op)

  function Mark(a: Attempt, op: Op, now: int): Attempt
    requires op.DoClaim? || op.DoSubmit? || op.DoSucceed? || op.DoDoubt?
  {
    match op
    case DoClaim(_, lease) => Claim(a, lease, now)
    case DoSubmit(_, lease) => MarkSubmitted(a, lease)
    case DoSucceed(_, proof) => MarkSucceeded(a, proof)
    case DoDoubt(_) => MarkUncertain(a)
  }

  function OrUnchanged(b: Books, r: Result<Books, ChargeError>): Books {
    if r.Ok? then r.value else b
  }

  /** One atomic step; a throw changes nothing. Passes are created and administered (paused,
      revoked, raised) by other services. */
  function Step(b: Books, op: Op, now: int): Books {
    match op
    case DoReserve(request) => OrUnchanged(b, Reserve(b, request, now))
    case DoRelease(k) => OrUnchanged(b, Release(b, k, now))
    case DoFinalize(k) => OrUnchanged(b, Finalize(b, k, now))
    case AddPass(pass) => b.(passes := b.passes + [pass.(spent := 0, reserved := 0)])
    case Administer(i, status, idle, extra) =>
      if i < |b.passes|
      then b.(passes := b.passes[i := b.passes[i].(status := status, idle := idle, limit := b.passes[i].limit + extra)])
      else b
    case Fund(fop) => b.(funds := Funding.Step(b.funds, fop, now))
    case _ =>
      if op.k < |b.attempts| then b.(attempts := b.attempts[op.k := Mark(b.attempts[op.k], op, now)]) else b
  }

  function Run(b: Books, ops: seq<(Op, int)>): Books {
    if ops == [] then b else Step(Run(b, ops[..|ops| - 1]), ops[|ops| - 1].0, ops[|ops| - 1].1)
  }
}
