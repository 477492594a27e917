/** What the charge protocol answers and leaves, on the stored rows: when a charge is reserved, which updates touch an
    attempt, when one is debited, and what a debit does to its pass, its day and the pass's funding
    (src/services/chargeReservation.service.ts). */
module ChargeAnswers {
  import opened Wrappers
  import opened Money
  import opened Tallies
  import opened Receipts
  import opened Charges
  import opened ChargesInvariant
  import Funding
  import FundingInvariant
  import FundingAnswers

  /** Days are counted from the epoch. */
  lemma DayIs(time: int, day: int)
    ensures DayOf(time) == day <==> day * 86_400_000 <= time < (day + 1) * 86_400_000
  {}

  // Reserving.

  ghost predicate NoAttempt(b: Books, r: Request) {
    forall k :: 0 <= k < |b.attempts| ==> b.attempts[k].session != r.session || b.attempts[k].key != r.key
  }

  /** The pass is its owner's, active, idle and as the caller expects, unused if it is for a single use, and covers the
      amount. */
  predicate PassServes(p: Pass, r: Request) {
    && p.owner == r.owner && p.status == Active && p.idle && r.matches
    && (!p.singleUse || (p.spent == 0 && p.reserved == 0)) && p.reserved + p.spent + r.amount <= p.limit
  }

  /** The attempt a reservation stores: pending, reserved for today, under the caller's lease for a minute. */
  predicate Stored(r: Request, now: int, day: int, a: Attempt) {
    && a.session == r.session && a.key == r.key && a.amount == r.amount && a.specialized == r.specialized
    && a.day == Some(day) && a.createdDay == DayOf(r.createdAt)
    && a.status == Pending && a.reserve == Reserved && a.provider == NotStarted
    && a.lease == r.lease && a.leaseExpires == now + 60_000 && a.receipt == None && a.proof == 0 && a.finalizedAt == 0
  }

  /** What a committed reservation leaves besides the day counters. */
  ghost predicate ReservedRows(b: Books, r: Request, now: int, day: int, m: Books) {
    && r.session < |b.passes|
    && m.passes == b.passes[r.session := b.passes[r.session].(reserved := b.passes[r.session].reserved + r.amount)]
    && |m.attempts| == |b.attempts| + 1 && m.attempts[..|b.attempts|] == b.attempts
    && Stored(r, now, day, m.attempts[|b.attempts|]) && m.funds == b.funds
  }

  lemma DayRow(b: Books, c: nat)
    requires DistinctDays(b.days) && c < |b.days|
    ensures FindDay(b.days, b.days[c].session, b.days[c].day) == Some(c)
  {}

  /** A repeated key changes nothing. */
  lemma ReserveReplays(b: Books, r: Request, now: int, k: nat)
    requires k < |b.attempts| && b.attempts[k].session == r.session && b.attempts[k].key == r.key
    ensures Reserve(b, r, now) == Ok(b)
  {}

  /** On a day that has a counter a charge is reserved exactly when its pass serves it and the counter has room. */
  lemma ReserveOnDayIff(b: Books, r: Request, now: int, day: int, c: nat)
    requires day == DayOf(now) && NoAttempt(b, r) && DistinctDays(b.days)
    requires c < |b.days| && b.days[c].session == r.session && b.days[c].day == day
    ensures var result := Reserve(b, r, now);
            var room := b.days[c].reserved + b.days[c].spent + r.amount <= r.dailyLimit;
            && (result.Ok? <==> r.session < |b.passes| && PassServes(b.passes[r.session], r) && room)
            && (result.Err? ==>
                  result.error == if r.session < |b.passes| && PassServes(b.passes[r.session], r) then DailyRejected
                                  else SessionRejected)
            && (result.Ok? ==>
                  && ReservedRows(b, r, now, day, result.value)
                  && result.value.days == b.days[c := b.days[c].(reserved := b.days[c].reserved + r.amount)])
  {
    DayRow(b, c);
    assert FindAttempt(b.attempts, r.session, r.key).None?;
  }

  ghost predicate NoDay(b: Books, session: nat, day: int) {
    forall c :: 0 <= c < |b.days| ==> b.days[c].session != session || b.days[c].day != day
  }

  lemma OpenedRow(b: Books, session: nat, day: int)
    requires NoDay(b, session, day)
    ensures var history := Tally(b.attempts, HistoryOn(session, day));
            WithDay(b, session, day) == b.days + [DayCounter(session, day, history, history, 0)]
    ensures FindDay(WithDay(b, session, day), session, day) == Some(|b.days|)
  {
    assert FindDay(b.days, session, day).None?;
  }

  /** On a day without one it is reserved exactly when its pass serves it and the limit has room beside what was stored as
      succeeded on that day, from which the new counter starts. */
  lemma ReserveOpensDayIff(b: Books, r: Request, now: int, day: int)
    requires day == DayOf(now) && NoAttempt(b, r) && NoDay(b, r.session, day)
    ensures var result, history := Reserve(b, r, now), Tally(b.attempts, HistoryOn(r.session, day));
            && (result.Ok? <==>
                  r.session < |b.passes| && PassServes(b.passes[r.session], r) && history + r.amount <= r.dailyLimit)
            && (result.Err? ==>
                  result.error == if r.session < |b.passes| && PassServes(b.passes[r.session], r) then DailyRejected
                                  else SessionRejected)
            && (result.Ok? ==>
                  && ReservedRows(b, r, now, day, result.value)
                  && result.value.days == b.days + [DayCounter(r.session, day, history, history, r.amount)])
  {
    assert FindAttempt(b.attempts, r.session, r.key).None?;
    OpenedRow(b, r.session, day);
    var history, n := Tally(b.attempts, HistoryOn(r.session, day)), |b.days|;
    var days := WithDay(b, r.session, day);
    assert days[n := days[n].(reserved := r.amount)] == b.days + [DayCounter(r.session, day, history, history, r.amount)];
  }

  /** History counts what succeeded of the pass and was stored on the day. */
  lemma HistoryCounts(a: Attempt, i: nat, day: int)
    ensures HistoryOn(i, day)(a) > 0 ==> a.session == i && a.createdDay == day && a.status == Succeeded
    ensures a.session == i && a.createdDay == day && a.status == Succeeded ==> HistoryOn(i, day)(a) == a.amount
  {}

  // Updates of one attempt.

  /** An attempt whose money is still held and whose payment did not begin. */
  predicate Waiting(a: Attempt) {
    a.status == Pending && a.reserve == Reserved && a.provider == NotStarted
  }

  /** An attempt whose money is still held and whose outcome is open. */
  predicate Unresolved(a: Attempt) {
    a.status in {Pending, Uncertain} && a.reserve == Reserved
  }

  /** A claim takes over a waiting attempt whose lease ran out; only the holder of the lease marks it submitted; and an
      outcome is recorded only while it is open. Nothing else changes, and no other attempt. */
  lemma MarksMove(b: Books, op: Op, now: int)
    requires op.DoClaim? || op.DoSubmit? || op.DoSucceed? || op.DoDoubt?
    ensures Step(b, op, now)
            == if op.k >= |b.attempts| then b
               else
                 var a := b.attempts[op.k];
                 b.(attempts := b.attempts[op.k :=
                                  match op
                                  case DoClaim(_, lease) =>
                                    if Waiting(a) && now >= a.leaseExpires then a.(lease := lease, leaseExpires := now + 60_000) else a
                                  case DoSubmit(_, lease) => if Waiting(a) && a.lease == lease then a.(provider := Submitted) else a
                                  case DoSucceed(_, proof) => if Unresolved(a) then a.(provider := Paid, proof := proof) else a
                                  case DoDoubt(_) => if Unresolved(a) then a.(status := Uncertain, provider := Doubtful) else a])
  {}

  // Releasing.

  /** The rows of attempt `k`, its pass and its day counter, and no other. */
  ghost predicate OnlyRows(b: Books, m: Books, k: nat, c: nat) {
    && k < |b.attempts| == |m.attempts| && b.attempts[k].session < |b.passes| == |m.passes| && c < |b.days| == |m.days|
    && (forall j :: 0 <= j < |b.attempts| && j != k ==> m.attempts[j] == b.attempts[j])
    && (forall i :: 0 <= i < |b.passes| && i != b.attempts[k].session ==> m.passes[i] == b.passes[i])
    && (forall d :: 0 <= d < |b.days| && d != c ==> m.days[d] == b.days[d])
  }

  /** A release gives a held amount back on the pass and its day. It ignores an attempt that ended as released or failed, and
      refuses one that was debited or has no reservation day. */
  lemma ReleaseAnswer(b: Books, opening: nat -> nat, k: nat, now: int)
    requires Inv(b, opening) && k < |b.attempts|
    ensures var a := b.attempts[k];
            var ended := a.reserve == Released || a.status == Failed;
            && (ended ==> Release(b, k, now) == Ok(b))
            && (!ended && (a.reserve == Debited || a.day.None?) ==> Release(b, k, now) == Err(NotReleasable))
            && (!ended && a.reserve == Reserved && a.day.Some? ==> Release(b, k, now).Ok?)
  {
    if b.attempts[k].day.Some? {
      Counted(b, opening, k);
    }
  }

  lemma ReleaseMoves(b: Books, opening: nat -> nat, k: nat, now: int, c: nat)
    requires Inv(b, opening) && k < |b.attempts| && c < |b.days|
    requires b.attempts[k].reserve == Reserved && b.attempts[k].status != Failed
    requires b.attempts[k].session == b.days[c].session && b.attempts[k].day == Some(b.days[c].day)
    ensures Release(b, k, now).Ok?
    ensures var m, a := Release(b, k, now).value, b.attempts[k];
            && OnlyRows(b, m, k, c) && m.funds == b.funds
            && a.amount <= b.passes[a.session].reserved && a.amount <= b.days[c].reserved
            && m.passes[a.session] == b.passes[a.session].(reserved := b.passes[a.session].reserved - a.amount)
            && m.days[c] == b.days[c].(reserved := b.days[c].reserved - a.amount)
            && m.attempts[k] == a.(status := Failed, reserve := Released, provider := Refused, leaseExpires := now)
  {
    Counted(b, opening, k);
    DayRow(b, c);
  }

  // Debiting.

  /** What a debit asks of the pass's funding: nothing without an allocation; otherwise an active one that covers the amount,
      on a source outside a shortfall, with safe counters, those of the release of a single-use pass included. */
  ghost predicate Payable(l: Funding.Ledger, session: nat, amount: nat, singleUse: bool) {
    forall k :: 0 <= k < |l.allocations| && l.allocations[k].session == session ==>
                  var al := l.allocations[k];
                  && al.state == Funding.Active && amount <= al.remaining && al.source < |l.sources|
                  && var s := l.sources[al.source];
                     && (s.mode == Funding.Secured ==> s.reserved <= s.locked) && s.spent + amount <= MAX_SAFE
                     && (singleUse ==> s.released + (al.remaining - amount) <= MAX_SAFE)
  }

  /** Spending from one allocation and then, on a single-use pass, releasing what is left. */
  function Paying(l: Funding.Ledger, session: nat, amount: nat, singleUse: bool, now: int): Result<Funding.Ledger, Funding.FundingError> {
    var spent := Funding.Spend(l, session, amount, now);
    if spent.Err? || !singleUse then spent else Funding.Release(spent.value, session, now)
  }

  lemma PayingIff(l: Funding.Ledger, session: nat, amount: nat, singleUse: bool, now: int)
    requires FundingInvariant.Accounts(l)
    ensures Paying(l, session, amount, singleUse, now).Ok? <==> Payable(l, session, amount, singleUse)
  {
    var found := Funding.FindAllocation(l.allocations, session);
    if found.None? {
      assert Funding.Spend(l, session, amount, now) == Ok(l) && Funding.Release(l, session, now) == Ok(l);
    } else {
      PayingFromIff(l, session, amount, singleUse, now, found.value);
    }
  }

  lemma PayingFromIff(l: Funding.Ledger, session: nat, amount: nat, singleUse: bool, now: int, k: nat)
    requires FundingInvariant.Accounts(l) && k < |l.allocations| && l.allocations[k].session == session
    ensures Paying(l, session, amount, singleUse, now).Ok? <==> Payable(l, session, amount, singleUse)
  {
    FundingAnswers.TheAllocation(l, session, k);
    FundingInvariant.SpendCommitsIff(l, session, amount, now);
    var spent := Funding.Spend(l, session, amount, now);
    if spent.Ok? {
      FundingInvariant.SpendAccounts(l, session, amount, now);
      FundingAnswers.SpendMoves(l, session, amount, now, k);
      FundingAnswers.TheAllocation(spent.value, session, k);
      FundingInvariant.ReleaseCommitsIff(spent.value, session, now);
    }
  }

  /** The pass's allocation after a payment: the amount more is spent; on a single-use pass nothing remains and the rest is
      released, on any other the amount less remains. */
  lemma PayingMoves(l: Funding.Ledger, session: nat, amount: nat, singleUse: bool, now: int, k: nat)
    requires FundingInvariant.Accounts(l) && k < |l.allocations| && l.allocations[k].session == session
    requires Paying(l, session, amount, singleUse, now).Ok?
    ensures var m := Paying(l, session, amount, singleUse, now).value;
            && FundingAnswers.OnlyRows(l, m, k)
            && var al := l.allocations[k];
               var s, t := l.sources[al.source], m.sources[al.source];
               && amount <= al.remaining && al.remaining <= s.authorized
               && (if singleUse
                   then m.allocations[k] == al.(spent := al.spent + amount, released := al.released + (al.remaining - amount),
                                                remaining := 0,
                                                state := if amount == al.remaining then Funding.Exhausted else Funding.Released)
                        && t.authorized == s.authorized - al.remaining && t.released == s.released + (al.remaining - amount)
                   else m.allocations[k] == al.(spent := al.spent + amount, remaining := al.remaining - amount,
                                                state := if amount == al.remaining then Funding.Exhausted else Funding.Active)
                        && t.authorized == s.authorized - amount && t.released == s.released)
               && t.mode == s.mode && t.spent == s.spent + amount
               && (s.mode == Funding.Secured ==> t.reserved == t.authorized && amount <= s.locked && t.locked == s.locked - amount)
  {
    FundingAnswers.TheAllocation(l, session, k);
    FundingAnswers.SpendMoves(l, session, amount, now, k);
    FundingInvariant.RemainderAuthorized(l, k);
    FundingInvariant.SpendAccounts(l, session, amount, now);
    SecuredAgrees(l, l.allocations[k].source);
    if singleUse {
      ThenReleased(Funding.Spend(l, session, amount, now).value, session, now, k);
    }
  }

  lemma SecuredAgrees(l: Funding.Ledger, i: nat)
    requires FundingInvariant.Accounts(l)
    ensures i < |l.sources| && l.sources[i].mode == Funding.Secured ==> l.sources[i].reserved == l.sources[i].authorized
  {
    if i < |l.sources| {
      assert FundingInvariant.SourceBasics(l.sources[i]);
    }
  }

  lemma ThenReleased(l: Funding.Ledger, session: nat, now: int, k: nat)
    requires FundingInvariant.Accounts(l) && k < |l.allocations| && l.allocations[k].session == session
    requires Funding.Release(l, session, now).Ok?
    ensures FundingAnswers.HasActive(l, session, k) || Funding.Release(l, session, now) == Ok(l)
    ensures FundingAnswers.HasActive(l, session, k) ==>
              var m, al := Funding.Release(l, session, now).value, l.allocations[k];
              && FundingAnswers.OnlyRows(l, m, k)
              && m.allocations[k] == al.(state := Funding.Released, released := al.released + al.remaining, remaining := 0)
              && FundingAnswers.Returned(l.sources[al.source], m.sources[al.source], al.remaining, now)
  {
    FundingAnswers.TheAllocation(l, session, k);
    if FundingAnswers.HasActive(l, session, k) {
      FundingAnswers.ReleaseMoves(l, session, now, k);
    }
  }

  /** An attempt that is not debited yet is debited exactly when its payment was made, its money is still held for a day, and
      the pass's funding can pay. */
  lemma FinalizeCommitsIff(b: Books, opening: nat -> nat, k: nat, now: int)
    requires Inv(b, opening) && k < |b.attempts| && !(b.attempts[k].status == Succeeded && b.attempts[k].reserve == Debited)
    ensures var a := b.attempts[k];
            && (Finalize(b, k, now).Ok? <==>
                  && a.provider == Paid && a.reserve == Reserved && a.day.Some?
                  && a.session < |b.passes| && Payable(b.funds, a.session, a.amount, b.passes[a.session].singleUse))
            && (Finalize(b, k, now) == Err(NotReady) <==> a.provider != Paid || a.reserve != Reserved || a.day.None?)
            && (Finalize(b, k, now).Err? ==> Finalize(b, k, now).error == NotReady || Finalize(b, k, now).error.Unfunded?)
  {
    var a := b.attempts[k];
    assert AttemptOk(b, k);
    if a.provider == Paid && a.reserve == Reserved && a.day.Some? {
      Counted(b, opening, k);
      PayingIff(b.funds, a.session, a.amount, b.passes[a.session].singleUse, now);
    }
  }

  /** An attempt debited before is not debited again: its receipt stands and nothing changes. */
  lemma FinalizeReplays(b: Books, opening: nat -> nat, k: nat, now: int)
    requires Inv(b, opening) && k < |b.attempts| && b.attempts[k].status == Succeeded && b.attempts[k].reserve == Debited
    ensures Finalize(b, k, now) == Ok(b)
  {
    assert AttemptOk(b, k);
    var r := Receipted(k, b.attempts[k]);
    assert r.Ok? && r.value == b.attempts[k];
    assert b.attempts[k := b.attempts[k]] == b.attempts;
  }

  lemma NoSuchAttempt(b: Books, k: nat, now: int)
    requires k >= |b.attempts|
    ensures Finalize(b, k, now) == Err(NotFound) && Release(b, k, now) == Ok(b)
  {}

  /** What a debit leaves: the amount moves from reserved to spent on the pass and its day, the attempt succeeded and, unless
      another workflow issues it, has its receipt; and the pass's funding has paid. */
  lemma FinalizeMoves(b: Books, opening: nat -> nat, k: nat, now: int, c: nat)
    requires Inv(b, opening) && k < |b.attempts| && !(b.attempts[k].status == Succeeded && b.attempts[k].reserve == Debited)
    requires Finalize(b, k, now).Ok? && c < |b.days|
    requires b.attempts[k].session == b.days[c].session && b.attempts[k].day == Some(b.days[c].day)
    ensures var m, a := Finalize(b, k, now).value, b.attempts[k];
            && OnlyRows(b, m, k, c)
            && a.provider == Paid && a.reserve == Reserved
            && a.amount <= b.passes[a.session].reserved && a.amount <= b.days[c].reserved
            && m.passes[a.session] == b.passes[a.session].(reserved := b.passes[a.session].reserved - a.amount,
                                                           spent := b.passes[a.session].spent + a.amount)
            && m.days[c] == b.days[c].(reserved := b.days[c].reserved - a.amount, spent := b.days[c].spent + a.amount)
            && m.attempts[k] == a.(status := Succeeded, reserve := Debited, finalizedAt := now, leaseExpires := now,
                                   receipt := if a.specialized then a.receipt
                                              else Some(Receipt(k, a.amount, 0, false, a.proof, now)))
            && Paying(b.funds, a.session, a.amount, b.passes[a.session].singleUse, now) == Ok(m.funds)
  {
    assert AttemptOk(b, k);
    Counted(b, opening, k);
    DayRow(b, c);
  }

  /** And so on the rows of the funding: after a debit the pass's allocation has spent the amount more, and on a single-use
      pass it is over and the rest of it is free again. */
  lemma FinalizePays(b: Books, opening: nat -> nat, k: nat, now: int, n: nat)
    requires Inv(b, opening) && k < |b.attempts| && !(b.attempts[k].status == Succeeded && b.attempts[k].reserve == Debited)
    requires Finalize(b, k, now).Ok?
    requires n < |b.funds.allocations| && b.funds.allocations[n].session == b.attempts[k].session
    ensures b.attempts[k].session < |b.passes|
    ensures var l, m, a := b.funds, Finalize(b, k, now).value.funds, b.attempts[k];
            && FundingAnswers.OnlyRows(l, m, n)
            && var al, after := l.allocations[n], m.allocations[n];
               && a.amount <= al.remaining && after.spent == al.spent + a.amount
               && (if b.passes[a.session].singleUse
                   then after.state != Funding.Active && after.remaining == 0
                        && after.released == al.released + (al.remaining - a.amount)
                        && m.sources[al.source].authorized + al.remaining == l.sources[al.source].authorized
                   else after.remaining == al.remaining - a.amount && after.released == al.released
                        && m.sources[al.source].authorized + a.amount == l.sources[al.source].authorized)
               && m.sources[al.source].spent == l.sources[al.source].spent + a.amount
  {
    var a := b.attempts[k];
    FinalizeCommitsIff(b, opening, k, now);
    var c := FindDay(b.days, a.session, a.day.value);
    Counted(b, opening, k);
    FinalizeMoves(b, opening, k, now, c.value);
    PayingMoves(b.funds, a.session, a.amount, b.passes[a.session].singleUse, now, n);
  }

  /** A step of a transaction keeps what commits, and leaves everything as it was on a throw. */
  lemma TransactionsAre(b: Books, r: Request, k: nat, now: int)
    ensures Step(b, DoReserve(r), now) == match Reserve(b, r, now) case Ok(m) => m case Err(_) => b
    ensures Step(b, DoRelease(k), now) == match Release(b, k, now) case Ok(m) => m case Err(_) => b
    ensures Step(b, DoFinalize(k), now) == match Finalize(b, k, now) case Ok(m) => m case Err(_) => b
  {}

  /** Other services open unused passes, administer them and move the funding, and touch nothing else. */
  lemma OthersAre(b: Books, pass: Pass, i: nat, status: PassStatus, idle: bool, extra: nat, op: Funding.Op, now: int)
    ensures var m := Step(b, AddPass(pass), now);
            && m == b.(passes := m.passes) && |m.passes| == |b.passes| + 1 && m.passes[..|b.passes|] == b.passes
            && m.passes[|b.passes|] == pass.(spent := 0, reserved := 0)
    ensures var m := Step(b, Administer(i, status, idle, extra), now);
            && m == b.(passes := m.passes) && |m.passes| == |b.passes|
            && (forall j :: 0 <= j < |b.passes| && j != i ==> m.passes[j] == b.passes[j])
            && (i < |b.passes| ==> m.passes[i] == b.passes[i].(status := status, idle := idle, limit := b.passes[i].limit + extra))
    ensures Step(b, Fund(op), now) == b.(funds := Funding.Step(b.funds, op, now))
  {}
}
