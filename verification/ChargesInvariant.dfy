/** The charge ledger's invariant over every run. `opening(i)` is what pass `i` had spent at the start,
    zero for a pass created later. */
module ChargesInvariant {
  import opened Wrappers
  import opened Tallies
  import opened Receipts
  import opened Charges
  import Funding
  import FundingInvariant

  function SpentAcross(i: nat): DayCounter -> nat {
    (c: DayCounter) => if c.session == i then c.spent else 0
  }

  function SeededAcross(i: nat): DayCounter -> nat {
    (c: DayCounter) => if c.session == i then c.seed else 0
  }

  function ReservedAcross(i: nat): DayCounter -> nat {
    (c: DayCounter) => if c.session == i then c.reserved else 0
  }

  /** A pass's counters are its open and its debited attempts, within its limit, and its days add up to it. */
  ghost predicate PassOk(b: Books, opening: nat -> nat, i: nat)
    requires i < |b.passes|
  {
    var p := b.passes[i];
    && p.reserved == Tally(b.attempts, HeldOn(i))
    && p.spent == opening(i) + Tally(b.attempts, TakenOn(i))
    && p.spent + p.reserved <= p.limit
    && Tally(b.days, ReservedAcross(i)) == p.reserved
    && Tally(b.days, SpentAcross(i)) + opening(i) == p.spent + Tally(b.days, SeededAcross(i))
  }

  /** A day's counters are that day's open attempts, and its seed plus that day's debited attempts. */
  ghost predicate DayOk(b: Books, c: DayCounter) {
    && c.session < |b.passes|
    && c.reserved == Tally(b.attempts, HeldOnDay(c.session, c.day))
    && c.spent == c.seed + Tally(b.attempts, TakenOnDay(c.session, c.day))
  }

  ghost predicate DistinctDays(days: seq<DayCounter>) {
    forall j, k :: 0 <= j < k < |days| ==> !(days[j].session == days[k].session && days[j].day == days[k].day)
  }

  ghost predicate AttemptOk(b: Books, k: nat)
    requires k < |b.attempts|
  {
    var a := b.attempts[k];
    && (a.day.Some? ==>
          && FindDay(b.days, a.session, a.day.value).Some?
          && (a.reserve == Debited <==> a.status == Succeeded)
          && (a.reserve == Released <==> a.status == Failed)
          && (a.reserve == Debited && !a.specialized ==> a.receipt == Some(DirectReceipt(k, a)))
          && (a.reserve != Debited ==> a.receipt == None))
    && (a.day.None? ==> a.reserve == Reserved)
  }

  ghost predicate DistinctKeys(attempts: seq<Attempt>) {
    forall j, k :: 0 <= j < k < |attempts| ==> !(attempts[j].session == attempts[k].session && attempts[j].key == attempts[k].key)
  }

  ghost predicate Inv(b: Books, opening: nat -> nat) {
    && (forall i :: |b.passes| <= i ==> opening(i) == 0)
    && (forall i :: 0 <= i < |b.passes| ==> PassOk(b, opening, i))
    && (forall c :: 0 <= c < |b.days| ==> DayOk(b, b.days[c]))
    && DistinctDays(b.days)
    && (forall k :: 0 <= k < |b.attempts| ==> AttemptOk(b, k))
    && DistinctKeys(b.attempts)
    && FundingInvariant.Inv(b.funds)
  }

  /** Where a run starts: history without reservations, no day counters, a consistent funding ledger. */
  ghost predicate Start(b: Books) {
    && b.days == [] && DistinctKeys(b.attempts) && FundingInvariant.Inv(b.funds)
    && (forall k :: 0 <= k < |b.attempts| ==> b.attempts[k].day.None? && AttemptOk(b, k))
    && (forall i :: 0 <= i < |b.passes| ==> b.passes[i].reserved == 0 && b.passes[i].spent <= b.passes[i].limit)
  }

  function Opening(b: Books): nat -> nat {
    (i: nat) => if i < |b.passes| then b.passes[i].spent else 0
  }

  lemma StartHolds(b: Books)
    requires Start(b)
    ensures Inv(b, Opening(b))
  {
    forall i | 0 <= i < |b.passes| ensures PassOk(b, Opening(b), i) {
      TallyZero(b.attempts, HeldOn(i));
      TallyZero(b.attempts, TakenOn(i));
    }
  }

  // Moving one attempt.

  lemma FindDayKept(days: seq<DayCounter>, c: nat, dc: DayCounter, session: nat, day: int)
    requires c < |days| && dc.session == days[c].session && dc.day == days[c].day
    requires FindDay(days, session, day).Some?
    ensures FindDay(days[c := dc], session, day).Some?
  {
    var f := FindDay(days, session, day).value;
    assert days[c := dc][f].session == session && days[c := dc][f].day == day;
  }

  /** Replaces attempt `k`, and the counters of its pass and its day, by the same differences. */
  function Moved(b: Books, k: nat, a: Attempt, p: Pass, c: nat, dc: DayCounter): Books
    requires k < |b.attempts| && a.session < |b.passes| && c < |b.days|
  {
    b.(passes := b.passes[a.session := p], days := b.days[c := dc], attempts := b.attempts[k := a])
  }

  ghost predicate SameDifferences(b: Books, k: nat, a: Attempt, p: Pass, c: nat, dc: DayCounter)
    requires k < |b.attempts| && a.session < |b.passes| && c < |b.days|
  {
    var o, q, oc := b.attempts[k], b.passes[a.session], b.days[c];
    && a.session == o.session == oc.session == dc.session
    && a.day == o.day == Some(oc.day) && dc.day == oc.day && dc.seed == oc.seed
    && a.key == o.key
    && p.limit == q.limit
    && p.reserved + Held(o) == q.reserved + Held(a) && p.spent + Taken(o) == q.spent + Taken(a)
    && dc.reserved + Held(o) == oc.reserved + Held(a) && dc.spent + Taken(o) == oc.spent + Taken(a)
    && Held(a) + Taken(a) <= Held(o) + Taken(o)
  }

  lemma MovedPass(b: Books, opening: nat -> nat, k: nat, a: Attempt, p: Pass, c: nat, dc: DayCounter, i: nat)
    requires Inv(b, opening) && k < |b.attempts| && a.session < |b.passes| && c < |b.days|
    requires SameDifferences(b, k, a, p, c, dc) && i < |b.passes|
    ensures PassOk(Moved(b, k, a, p, c, dc), opening, i)
  {
    assert PassOk(b, opening, i);
    TallyUpdate(b.attempts, k, a, HeldOn(i));
    TallyUpdate(b.attempts, k, a, TakenOn(i));
    TallyUpdate(b.days, c, dc, ReservedAcross(i));
    TallyUpdate(b.days, c, dc, SpentAcross(i));
    TallyUpdate(b.days, c, dc, SeededAcross(i));
  }

  lemma MovedDay(b: Books, opening: nat -> nat, k: nat, a: Attempt, p: Pass, c: nat, dc: DayCounter, d: nat)
    requires Inv(b, opening) && k < |b.attempts| && a.session < |b.passes| && c < |b.days|
    requires SameDifferences(b, k, a, p, c, dc) && d < |b.days|
    ensures DayOk(Moved(b, k, a, p, c, dc), Moved(b, k, a, p, c, dc).days[d])
  {
    var o := b.days[d];
    assert DayOk(b, o);
    TallyUpdate(b.attempts, k, a, HeldOnDay(o.session, o.day));
    TallyUpdate(b.attempts, k, a, TakenOnDay(o.session, o.day));
    assert d != c ==> !(o.session == b.days[c].session && o.day == b.days[c].day);
  }

  lemma MoveKeeps(b: Books, opening: nat -> nat, k: nat, a: Attempt, p: Pass, c: nat, dc: DayCounter)
    requires Inv(b, opening) && k < |b.attempts| && a.session < |b.passes| && c < |b.days|
    requires SameDifferences(b, k, a, p, c, dc)
    requires AttemptOk(b.(attempts := b.attempts[k := a]), k)
    ensures Inv(Moved(b, k, a, p, c, dc), opening)
  {
    var m := Moved(b, k, a, p, c, dc);
    forall i | 0 <= i < |m.passes| ensures PassOk(m, opening, i) {
      MovedPass(b, opening, k, a, p, c, dc, i);
    }
    forall d | 0 <= d < |m.days| ensures DayOk(m, m.days[d]) {
      MovedDay(b, opening, k, a, p, c, dc, d);
    }
    forall j | 0 <= j < |m.attempts| ensures AttemptOk(m, j) {
      assert AttemptOk(b, j);
      var x := b.attempts[j];
      if x.day.Some? {
        FindDayKept(b.days, c, dc, x.session, x.day.value);
      }
    }
    assert DistinctDays(m.days) && DistinctKeys(m.attempts);
  }

  /** The pass and the day counter of an attempt with a reservation day exist and hold what it holds. */
  lemma Counted(b: Books, opening: nat -> nat, k: nat)
    requires Inv(b, opening) && k < |b.attempts| && b.attempts[k].day.Some?
    ensures var a := b.attempts[k];
            && a.session < |b.passes| && Held(a) <= b.passes[a.session].reserved
            && FindDay(b.days, a.session, a.day.value).Some?
            && Held(a) <= b.days[FindDay(b.days, a.session, a.day.value).value].reserved
  {
    var a := b.attempts[k];
    assert AttemptOk(b, k);
    var c := FindDay(b.days, a.session, a.day.value).value;
    assert DayOk(b, b.days[c]);
    assert PassOk(b, opening, a.session);
    TallyMember(b.attempts, k, HeldOn(a.session));
    TallyMember(b.attempts, k, HeldOnDay(a.session, a.day.value));
  }

  lemma ReleaseKeeps(b: Books, opening: nat -> nat, k: nat, now: int)
    requires Inv(b, opening) && Release(b, k, now).Ok?
    ensures Inv(Release(b, k, now).value, opening)
  {
    var m := Release(b, k, now).value;
    if m != b {
      var a := m.attempts[k];
      assert AttemptOk(b, k);
      var c := FindDay(b.days, a.session, a.day.value).value;
      MoveKeeps(b, opening, k, a, m.passes[a.session], c, m.days[c]);
      assert m == Moved(b, k, a, m.passes[a.session], c, m.days[c]);
    }
  }

  lemma FundsKept(l: Funding.Ledger, session: nat, amount: nat, alsoRelease: bool, now: int)
    requires FundingInvariant.Inv(l) && Funding.Spend(l, session, amount, now).Ok?
    ensures var spent := Funding.Spend(l, session, amount, now).value;
            && FundingInvariant.Inv(spent)
            && (Funding.Release(spent, session, now).Ok? ==> FundingInvariant.Inv(Funding.Release(spent, session, now).value))
  {
    FundingInvariant.SpendKeeps(l, session, amount, now);
    var spent := Funding.Spend(l, session, amount, now).value;
    if Funding.Release(spent, session, now).Ok? {
      FundingInvariant.ReleaseKeeps(spent, session, now);
    }
  }

  lemma WithFunds(b: Books, opening: nat -> nat, funds: Funding.Ledger)
    requires Inv(b, opening) && FundingInvariant.Inv(funds)
    ensures Inv(b.(funds := funds), opening)
  {
    var m := b.(funds := funds);
    forall i | 0 <= i < |m.passes| ensures PassOk(m, opening, i) {
      assert PassOk(b, opening, i);
    }
    forall c | 0 <= c < |m.days| ensures DayOk(m, m.days[c]) {
      assert DayOk(b, b.days[c]);
    }
    forall k | 0 <= k < |m.attempts| ensures AttemptOk(m, k) {
      assert AttemptOk(b, k);
    }
  }

  /** A debit moves the attempt's amount from reserved to spent on its pass and its day, and spends the funding. */
  lemma DebitMoves(b: Books, opening: nat -> nat, k: nat, now: int)
    requires Inv(b, opening) && k < |b.attempts| && Debit(b, k, now).Ok?
    ensures var m, o := Debit(b, k, now).value, b.attempts[k];
            && o.day.Some? && o.session < |b.passes| && FindDay(b.days, o.session, o.day.value).Some?
            && |m.attempts| == |b.attempts| && |m.passes| == |b.passes| && |m.days| == |b.days|
            && FundingInvariant.Inv(m.funds)
            && var c := FindDay(b.days, o.session, o.day.value).value;
               && m.attempts[k].session == o.session
               && m == Moved(b, k, m.attempts[k], m.passes[o.session], c, m.days[c]).(funds := m.funds)
               && SameDifferences(b, k, m.attempts[k], m.passes[o.session], c, m.days[c])
               && AttemptOk(b.(attempts := b.attempts[k := m.attempts[k]]), k)
  {
    var o := b.attempts[k];
    assert AttemptOk(b, k);
    FundsKept(b.funds, o.session, o.amount, b.passes[o.session].singleUse, now);
  }

  lemma FinalizeKeeps(b: Books, opening: nat -> nat, k: nat, now: int)
    requires Inv(b, opening) && Finalize(b, k, now).Ok?
    ensures Inv(Finalize(b, k, now).value, opening)
  {
    var m, o := Finalize(b, k, now).value, b.attempts[k];
    if o.status == Succeeded && o.reserve == Debited {
      assert AttemptOk(b, k);
      assert m.attempts == b.attempts;
      assert m == b;
    } else {
      DebitMoves(b, opening, k, now);
      var c := FindDay(b.days, o.session, o.day.value).value;
      MoveKeeps(b, opening, k, m.attempts[k], m.passes[o.session], c, m.days[c]);
      WithFunds(Moved(b, k, m.attempts[k], m.passes[o.session], c, m.days[c]), opening, m.funds);
    }
  }

  /** Rewriting what an attempt does not hold or take leaves every counter right. */
  lemma RewriteKeeps(b: Books, opening: nat -> nat, k: nat, a: Attempt)
    requires Inv(b, opening) && k < |b.attempts|
    requires a.session == b.attempts[k].session && a.day == b.attempts[k].day && a.key == b.attempts[k].key
    requires Held(a) == Held(b.attempts[k]) && Taken(a) == Taken(b.attempts[k])
    requires AttemptOk(b.(attempts := b.attempts[k := a]), k)
    ensures Inv(b.(attempts := b.attempts[k := a]), opening)
  {
    var m := b.(attempts := b.attempts[k := a]);
    forall i | 0 <= i < |m.passes| ensures PassOk(m, opening, i) {
      assert PassOk(b, opening, i);
      TallyUpdate(b.attempts, k, a, HeldOn(i));
      TallyUpdate(b.attempts, k, a, TakenOn(i));
    }
    forall c | 0 <= c < |m.days| ensures DayOk(m, m.days[c]) {
      var o := b.days[c];
      assert DayOk(b, o);
      TallyUpdate(b.attempts, k, a, HeldOnDay(o.session, o.day));
      TallyUpdate(b.attempts, k, a, TakenOnDay(o.session, o.day));
    }
    forall j | 0 <= j < |m.attempts| ensures AttemptOk(m, j) {
      assert AttemptOk(b, j);
    }
  }

  lemma MarkKeeps(b: Books, opening: nat -> nat, op: Op, now: int)
    requires Inv(b, opening) && (op.DoClaim? || op.DoSubmit? || op.DoSucceed? || op.DoDoubt?)
    ensures Inv(Step(b, op, now), opening)
  {
    if op.k < |b.attempts| {
      var a := Mark(b.attempts[op.k], op, now);
      assert AttemptOk(b, op.k);
      RewriteKeeps(b, opening, op.k, a);
    }
  }

  // Reserving.

  lemma FindDayAppend(days: seq<DayCounter>, dc: DayCounter, session: nat, day: int)
    requires FindDay(days, session, day).Some?
    ensures FindDay(days + [dc], session, day).Some?
  {
    var f := FindDay(days, session, day).value;
    assert (days + [dc])[f] == days[f];
  }

  /** Opening a day counter keeps the invariant: no attempt was reserved on that day yet. */
  lemma WithDayKeeps(b: Books, opening: nat -> nat, session: nat, day: int)
    requires Inv(b, opening) && session < |b.passes|
    ensures Inv(b.(days := WithDay(b, session, day)), opening)
  {
    if FindDay(b.days, session, day).None? {
      var m := b.(days := WithDay(b, session, day));
      var dc := m.days[|b.days|];
      forall i | 0 <= i < |m.passes| ensures PassOk(m, opening, i) {
        assert PassOk(b, opening, i);
        TallyAppend(b.days, dc, ReservedAcross(i));
        TallyAppend(b.days, dc, SpentAcross(i));
        TallyAppend(b.days, dc, SeededAcross(i));
      }
      forall k | 0 <= k < |b.attempts|
        ensures HeldOnDay(session, day)(b.attempts[k]) == 0 && TakenOnDay(session, day)(b.attempts[k]) == 0
      {
        assert AttemptOk(b, k);
      }
      TallyZero(b.attempts, HeldOnDay(session, day));
      TallyZero(b.attempts, TakenOnDay(session, day));
      forall c | 0 <= c < |m.days| ensures DayOk(m, m.days[c]) {
        assert c < |b.days| ==> DayOk(b, b.days[c]);
      }
      forall k | 0 <= k < |m.attempts| ensures AttemptOk(m, k) {
        assert AttemptOk(b, k);
        var x := b.attempts[k];
        if x.day.Some? {
          FindDayAppend(b.days, dc, x.session, x.day.value);
        }
      }
    } else {
      assert b.(days := WithDay(b, session, day)) == b;
    }
  }

  /** The books after attempt `a` is reserved on its pass and on day counter `c`. */
  function WithHold(b: Books, a: Attempt, c: nat): Books
    requires a.session < |b.passes| && c < |b.days|
  {
    var pass := b.passes[a.session];
    b.(passes := b.passes[a.session := pass.(reserved := pass.reserved + a.amount)],
       days := b.days[c := b.days[c].(reserved := b.days[c].reserved + a.amount)],
       attempts := b.attempts + [a])
  }

  ghost predicate Reservable(b: Books, a: Attempt, c: nat) {
    && a.session < |b.passes| && c < |b.days|
    && b.passes[a.session].spent + b.passes[a.session].reserved + a.amount <= b.passes[a.session].limit
    && a.day.Some? && FindDay(b.days, a.session, a.day.value) == Some(c)
    && a.status == Pending && a.reserve == Reserved && a.receipt == None
    && FindAttempt(b.attempts, a.session, a.key).None?
  }

  /** Reserving on one counter adds to its pass's reserved days and to nothing else. */
  lemma ReservedAcrossDays(days: seq<DayCounter>, c: nat, amount: nat, i: nat)
    requires c < |days|
    ensures var later := days[c := days[c].(reserved := days[c].reserved + amount)];
            && Tally(later, ReservedAcross(i)) == Tally(days, ReservedAcross(i)) + (if days[c].session == i then amount else 0)
            && Tally(later, SpentAcross(i)) == Tally(days, SpentAcross(i))
            && Tally(later, SeededAcross(i)) == Tally(days, SeededAcross(i))
  {
    var dc := days[c].(reserved := days[c].reserved + amount);
    TallyUpdate(days, c, dc, ReservedAcross(i));
    TallyUpdate(days, c, dc, SpentAcross(i));
    TallyUpdate(days, c, dc, SeededAcross(i));
  }

  /** Attempt `a` adds its amount to what its own pass holds and takes nothing. */
  lemma ReservedAcrossAttempts(b: Books, a: Attempt, c: nat, i: nat)
    requires Reservable(b, a, c)
    ensures Tally(b.attempts + [a], HeldOn(i)) == Tally(b.attempts, HeldOn(i)) + (if a.session == i then a.amount else 0)
    ensures Tally(b.attempts + [a], TakenOn(i)) == Tally(b.attempts, TakenOn(i))
  {
    TallyAppend(b.attempts, a, HeldOn(i));
    TallyAppend(b.attempts, a, TakenOn(i));
  }

  lemma ReservedPass(b: Books, opening: nat -> nat, a: Attempt, c: nat, i: nat)
    requires Reservable(b, a, c) && i < |b.passes| && PassOk(b, opening, i)
    ensures PassOk(WithHold(b, a, c), opening, i)
  {
    assert b.days[c].session == a.session;
    ReservedAcrossAttempts(b, a, c, i);
    ReservedAcrossDays(b.days, c, a.amount, i);
  }

  lemma ReservedDay(b: Books, opening: nat -> nat, a: Attempt, c: nat, d: nat)
    requires Inv(b, opening) && Reservable(b, a, c) && d < |b.days|
    ensures DayOk(WithHold(b, a, c), WithHold(b, a, c).days[d])
  {
    var o := b.days[d];
    assert DayOk(b, o);
    TallyAppend(b.attempts, a, HeldOnDay(o.session, o.day));
    TallyAppend(b.attempts, a, TakenOnDay(o.session, o.day));
    assert d != c ==> !(o.session == b.days[c].session && o.day == b.days[c].day);
  }

  lemma ReservedAttempt(b: Books, opening: nat -> nat, a: Attempt, c: nat, k: nat)
    requires Inv(b, opening) && Reservable(b, a, c) && k <= |b.attempts|
    ensures AttemptOk(WithHold(b, a, c), k)
  {
    var m := WithHold(b, a, c);
    assert k < |b.attempts| ==> AttemptOk(b, k);
    var x := m.attempts[k];
    if x.day.Some? {
      FindDayKept(b.days, c, m.days[c], x.session, x.day.value);
    }
  }

  lemma ReservedDistinct(b: Books, a: Attempt, c: nat)
    requires Reservable(b, a, c) && DistinctDays(b.days) && DistinctKeys(b.attempts)
    ensures DistinctDays(WithHold(b, a, c).days) && DistinctKeys(WithHold(b, a, c).attempts)
  {}

  lemma ReserveWithDay(b: Books, opening: nat -> nat, a: Attempt, c: nat)
    requires Inv(b, opening) && Reservable(b, a, c)
    ensures Inv(WithHold(b, a, c), opening)
  {
    var m := WithHold(b, a, c);
    forall i | 0 <= i < |m.passes| ensures PassOk(m, opening, i) {
      assert PassOk(b, opening, i);
      ReservedPass(b, opening, a, c, i);
    }
    forall d | 0 <= d < |m.days| ensures DayOk(m, m.days[d]) {
      ReservedDay(b, opening, a, c, d);
    }
    forall k | 0 <= k < |m.attempts| ensures AttemptOk(m, k) {
      ReservedAttempt(b, opening, a, c, k);
    }
    ReservedDistinct(b, a, c);
  }

  lemma ReserveKeeps(b: Books, opening: nat -> nat, r: Request, now: int)
    requires Inv(b, opening) && Reserve(b, r, now).Ok?
    ensures Inv(Reserve(b, r, now).value, opening)
  {
    if FindAttempt(b.attempts, r.session, r.key).None? {
      WithDayKeeps(b, opening, r.session, DayOf(now));
      var open := b.(days := WithDay(b, r.session, DayOf(now)));
      ReserveWithDay(open, opening, NewAttempt(r, now), FindDay(open.days, r.session, DayOf(now)).value);
    }
  }

  lemma AdministerKeeps(b: Books, opening: nat -> nat, op: Op, now: int)
    requires Inv(b, opening) && op.Administer?
    ensures Inv(Step(b, op, now), opening)
  {
    var m := Step(b, op, now);
    forall i | 0 <= i < |m.passes| ensures PassOk(m, opening, i) {
      assert PassOk(b, opening, i);
    }
    forall c | 0 <= c < |m.days| ensures DayOk(m, m.days[c]) {
      assert DayOk(b, b.days[c]);
    }
    forall k | 0 <= k < |m.attempts| ensures AttemptOk(m, k) {
      assert AttemptOk(b, k);
    }
  }

  /** Nothing was ever reserved or counted on a pass that is only now created. */
  lemma NothingOnNewPass(b: Books, opening: nat -> nat)
    requires Inv(b, opening)
    ensures var n := |b.passes|;
            && Tally(b.attempts, HeldOn(n)) == 0 && Tally(b.attempts, TakenOn(n)) == 0
            && Tally(b.days, ReservedAcross(n)) == 0 && Tally(b.days, SpentAcross(n)) == 0
            && Tally(b.days, SeededAcross(n)) == 0
  {
    var n := |b.passes|;
    forall c | 0 <= c < |b.days| ensures b.days[c].session != n {
      assert DayOk(b, b.days[c]);
    }
    forall k | 0 <= k < |b.attempts| ensures HeldOn(n)(b.attempts[k]) == 0 && TakenOn(n)(b.attempts[k]) == 0 {
      assert AttemptOk(b, k);
    }
    TallyZero(b.attempts, HeldOn(n));
    TallyZero(b.attempts, TakenOn(n));
    TallyZero(b.days, ReservedAcross(n));
    TallyZero(b.days, SpentAcross(n));
    TallyZero(b.days, SeededAcross(n));
  }

  lemma AddPassKeeps(b: Books, opening: nat -> nat, pass: Pass)
    requires Inv(b, opening) && pass.spent == 0 && pass.reserved == 0
    ensures Inv(b.(passes := b.passes + [pass]), opening)
  {
    var m := b.(passes := b.passes + [pass]);
    NothingOnNewPass(b, opening);
    forall i | 0 <= i < |m.passes| ensures PassOk(m, opening, i) {
      assert i < |b.passes| ==> PassOk(b, opening, i);
    }
    forall c | 0 <= c < |m.days| ensures DayOk(m, m.days[c]) {
      assert DayOk(b, b.days[c]);
    }
    forall k | 0 <= k < |m.attempts| ensures AttemptOk(m, k) {
      assert AttemptOk(b, k);
    }
  }

  lemma StepKeeps(b: Books, opening: nat -> nat, op: Op, now: int)
    requires Inv(b, opening)
    ensures Inv(Step(b, op, now), opening)
  {
    match op
    case DoReserve(r) =>
      if Reserve(b, r, now).Ok? {
        ReserveKeeps(b, opening, r, now);
      }
    case DoRelease(k) =>
      if Release(b, k, now).Ok? {
        ReleaseKeeps(b, opening, k, now);
      }
    case DoFinalize(k) =>
      if Finalize(b, k, now).Ok? {
        FinalizeKeeps(b, opening, k, now);
      }
    case AddPass(pass) => AddPassKeeps(b, opening, pass.(spent := 0, reserved := 0));
    case Administer(_, _, _, _) => AdministerKeeps(b, opening, op, now);
    case Fund(fop) =>
      FundingInvariant.StepKeeps(b.funds, fop, now);
      WithFunds(b, opening, Funding.Step(b.funds, fop, now));
    case _ => MarkKeeps(b, opening, op, now);
  }

  /** Every run keeps every counter equal to the attempts it stands for, and every pass within its limit. */
  lemma {:induction false} RunKeeps(b: Books, opening: nat -> nat, ops: seq<(Op, int)>)
    requires Inv(b, opening)
    ensures Inv(Run(b, ops), opening)
  {
    if ops != [] {
      RunKeeps(b, opening, ops[..|ops| - 1]);
      StepKeeps(Run(b, ops[..|ops| - 1]), opening, ops[|ops| - 1].0, ops[|ops| - 1].1);
    }
  }
}
