/** The stored charge collections, updated counter by counter inside each transaction. */
module ChargeStores {
  import opened Wrappers
  import opened Tallies
  import opened Receipts
  import opened Charges
  import Funding

  class ChargeStore {
    var passes: seq<Pass>
    var days: seq<DayCounter>
    var attempts: seq<Attempt>
    var funds: Funding.Ledger

    function Contents(): Books
      reads this
    {
      Books(passes, days, attempts, funds)
    }

    constructor (passes: seq<Pass>, attempts: seq<Attempt>, funds: Funding.Ledger)
      ensures Contents() == Books(passes, [], attempts, funds)
    {
      this.passes, this.days, this.attempts, this.funds := passes, [], attempts, funds;
    }

    /** The position of the attempt that holds the reservation, and whether this call created it. */
    method ReserveChargeAttempt(r: Request, now: int) returns (outcome: Result<(nat, bool), ChargeError>)
      modifies this
      ensures Contents() == OrUnchanged(old(Contents()), Reserve(old(Contents()), r, now))
      ensures outcome.Ok? <==> Reserve(old(Contents()), r, now).Ok?
      ensures outcome.Err? ==> Reserve(old(Contents()), r, now) == Err(outcome.error)
      ensures outcome.Ok? ==>
                && outcome.value.0 < |attempts|
                && attempts[outcome.value.0].session == r.session && attempts[outcome.value.0].key == r.key
                && (outcome.value.1 <==> FindAttempt(old(attempts), r.session, r.key).None?)
    {
      var existing := FindAttempt(attempts, r.session, r.key);
      if existing.Some? {
        return Ok((existing.value, false));
      }
      var day := DayOf(now);
      var counters := days;
      if FindDay(counters, r.session, day).None? {
        var historicalSpent := Tally(attempts, HistoryOn(r.session, day));
        counters := counters + [DayCounter(r.session, day, historicalSpent, historicalSpent, 0)];
      }
      if r.session >= |passes| || !PassAccepts(passes[r.session], r) {
        return Err(SessionRejected);
      }
      var pass := passes[r.session];
      pass := pass.(reserved := pass.reserved + r.amount);
      var c := FindDay(counters, r.session, day).value;
      if counters[c].spent + counters[c].reserved + r.amount > r.dailyLimit {
        return Err(DailyRejected);
      }
      counters := counters[c := counters[c].(reserved := counters[c].reserved + r.amount)];
      passes := passes[r.session := pass];
      days := counters;
      attempts := attempts + [NewAttempt(r, now)];
      return Ok((|attempts| - 1, true));
    }

    method ReleaseChargeReservation(k: nat, now: int) returns (outcome: Result<(), ChargeError>)
      modifies this
      ensures Contents() == OrUnchanged(old(Contents()), Release(old(Contents()), k, now))
      ensures outcome.Ok? <==> Release(old(Contents()), k, now).Ok?
      ensures outcome.Err? ==> Release(old(Contents()), k, now) == Err(outcome.error)
    {
      if k >= |attempts| || attempts[k].reserve == Released || attempts[k].status == Failed {
        return Ok(());
      }
      var attempt := attempts[k];
      if attempt.reserve != Reserved || attempt.day.None? {
        return Err(NotReleasable);
      }
      var c := FindDay(days, attempt.session, attempt.day.value);
      var sessionMatched := attempt.session < |passes| && attempt.amount <= passes[attempt.session].reserved;
      var dayMatched := c.Some? && attempt.amount <= days[c.value].reserved;
      if !sessionMatched || !dayMatched {
        return Err(CountersInconsistent);
      }
      var pass := passes[attempt.session];
      passes := passes[attempt.session := pass.(reserved := pass.reserved - attempt.amount)];
      days := days[c.value := days[c.value].(reserved := days[c.value].reserved - attempt.amount)];
      attempt := attempt.(status := Failed);
      attempt := attempt.(reserve := Released);
      attempt := attempt.(provider := Refused);
      attempt := attempt.(leaseExpires := now);
      attempts := attempts[k := attempt];
      return Ok(());
    }

    method FinalizeChargeReservation(k: nat, now: int) returns (outcome: Result<Attempt, ChargeError>)
      modifies this
      ensures Contents() == OrUnchanged(old(Contents()), Finalize(old(Contents()), k, now))
      ensures outcome.Ok? <==> Finalize(old(Contents()), k, now).Ok?
      ensures outcome.Err? ==> Finalize(old(Contents()), k, now) == Err(outcome.error)
      ensures outcome.Ok? ==> k < |attempts| && outcome.value == attempts[k]
    {
      if k >= |attempts| {
        return Err(NotFound);
      }
      if attempts[k].status == Succeeded && attempts[k].reserve == Debited {
        var attempt :- Receipted(k, attempts[k]);
        attempts := attempts[k := attempt];
        return Ok(attempt);
      }
      outcome := DebitAttempt(k, now);
    }

    method SpendFunds(pass: Pass, session: nat, amount: nat, now: int) returns (r: Result<Funding.Ledger, ChargeError>)
      ensures var spent := Funding.Spend(funds, session, amount, now);
              r == if spent.Err? then Err(Unfunded(spent.error))
                   else if pass.singleUse then Funded(Funding.Release(spent.value, session, now))
                   else Ok(spent.value)
    {
      var ledger :- Funded(Funding.Spend(funds, session, amount, now));
      if pass.singleUse {
        ledger :- Funded(Funding.Release(ledger, session, now));
      }
      return Ok(ledger);
    }

    method DebitAttempt(k: nat, now: int) returns (outcome: Result<Attempt, ChargeError>)
      requires k < |attempts|
      modifies this
      ensures Contents() == OrUnchanged(old(Contents()), Debit(old(Contents()), k, now))
      ensures outcome.Ok? <==> Debit(old(Contents()), k, now).Ok?
      ensures outcome.Err? ==> Debit(old(Contents()), k, now) == Err(outcome.error)
      ensures outcome.Ok? ==> k < |attempts| && outcome.value == attempts[k]
    {
      var attempt := attempts[k];
      if attempt.provider != Paid || attempt.reserve != Reserved || attempt.day.None? {
        return Err(NotReady);
      }
      if !CountersHold(Contents(), attempt) {
        return Err(CountersInconsistent);
      }
      var pass := passes[attempt.session];
      var ledger :- SpendFunds(pass, attempt.session, attempt.amount, now);
      pass := pass.(reserved := pass.reserved - attempt.amount);
      pass := pass.(spent := pass.spent + attempt.amount);
      var c := FindDay(days, attempt.session, attempt.day.value).value;
      var counter := days[c];
      counter := counter.(reserved := counter.reserved - attempt.amount);
      counter := counter.(spent := counter.spent + attempt.amount);
      attempt := attempt.(status := Succeeded);
      attempt := attempt.(reserve := Debited);
      attempt := attempt.(finalizedAt := now, leaseExpires := now);
      attempt :- Receipted(k, attempt);
      passes, days, attempts, funds := passes[attempt.session := pass], days[c := counter], attempts[k := attempt], ledger;
      return Ok(attempt);
    }
  }
}
