/** Run theorems of the charge ledger: caps, single use, one way out of a reservation, days against the pass,
    unreachable guards, and progress of paid attempts. */
module ChargesTheorems {
  import opened Wrappers
  import opened Money
  import opened Tallies
  import opened Receipts
  import opened Charges
  import opened ChargesInvariant
  import Funding
  import FundingInvariant

  // Unreachable guards.

  /** The counter guards of release and finalize, and the receipt conflict, never fire. */
  lemma ConsistencyGuardsUnreachable(b: Books, opening: nat -> nat, k: nat, now: int)
    requires Inv(b, opening)
    ensures Release(b, k, now) != Err(CountersInconsistent)
    ensures Finalize(b, k, now) != Err(CountersInconsistent) && Finalize(b, k, now) != Err(ReceiptReused)
  {
    if k < |b.attempts| {
      assert AttemptOk(b, k);
      if b.attempts[k].day.Some? {
        Counted(b, opening, k);
      }
    }
  }

  // One way out of a reservation.

  /** What later steps never change about an attempt: its identity always, and everything once it left "reserved". */
  ghost predicate Persists(a: Attempt, later: Attempt) {
    && later.session == a.session && later.key == a.key && later.amount == a.amount && later.day == a.day
    && later.createdDay == a.createdDay
    && (a.day.Some? && a.reserve != Reserved ==> later == a)
  }

  ghost predicate Later(b: Books, t: Books) {
    && |b.attempts| <= |t.attempts|
    && forall k :: 0 <= k < |b.attempts| ==> Persists(b.attempts[k], t.attempts[k])
  }

  lemma LaterReflexive(b: Books)
    ensures Later(b, b)
  {}

  /** A step that rewrites one attempt leaves the others. */
  lemma OneLater(b: Books, m: Books, k: nat)
    requires k < |b.attempts| == |m.attempts| && m.attempts == b.attempts[k := m.attempts[k]]
    requires Persists(b.attempts[k], m.attempts[k])
    ensures Later(b, m)
  {}

  lemma ReserveLater(b: Books, r: Request, now: int)
    ensures Later(b, Step(b, DoReserve(r), now))
  {
    var outcome := Reserve(b, r, now);
    if outcome.Ok? && outcome.value != b {
      assert outcome.value.attempts == b.attempts + [NewAttempt(r, now)];
    } else {
      LaterReflexive(b);
    }
  }

  lemma ReleaseLater(b: Books, k: nat, now: int)
    ensures Later(b, Step(b, DoRelease(k), now))
  {
    var outcome := Release(b, k, now);
    if outcome.Ok? && outcome.value != b {
      OneLater(b, outcome.value, k);
    } else {
      LaterReflexive(b);
    }
  }

  lemma FinalizeLater(b: Books, opening: nat -> nat, k: nat, now: int)
    requires Inv(b, opening)
    ensures Later(b, Step(b, DoFinalize(k), now))
  {
    var outcome := Finalize(b, k, now);
    if outcome.Ok? {
      assert AttemptOk(b, k);
      OneLater(b, outcome.value, k);
    } else {
      LaterReflexive(b);
    }
  }

  lemma StepLater(b: Books, opening: nat -> nat, op: Op, now: int)
    requires Inv(b, opening)
    ensures Later(b, Step(b, op, now))
  {
    match op
    case DoReserve(r) => ReserveLater(b, r, now);
    case DoRelease(k) => ReleaseLater(b, k, now);
    case DoFinalize(k) => FinalizeLater(b, opening, k, now);
    case AddPass(_) => LaterReflexive(b);
    case Administer(_, _, _, _) => LaterReflexive(b);
    case Fund(_) => LaterReflexive(b);
    case _ =>
      if op.k < |b.attempts| {
        OneLater(b, Step(b, op, now), op.k);
      }
  }

  /** What a step adds: at most the attempt of a reservation its pass accepted. */
  ghost predicate Adds(b: Books, m: Books, op: Op, now: int) {
    && |b.passes| <= |m.passes| && (forall i :: 0 <= i < |b.passes| ==> m.passes[i].singleUse == b.passes[i].singleUse)
    && (|m.attempts| > |b.attempts| ==>
          && op.DoReserve? && m.attempts == b.attempts + [NewAttempt(op.request, now)]
          && op.request.session < |b.passes| && PassAccepts(b.passes[op.request.session], op.request))
  }

  lemma StepAdds(b: Books, op: Op, now: int)
    ensures Adds(b, Step(b, op, now), op, now)
  {
    match op
    case DoReserve(r) => var outcome := Reserve(b, r, now);
    case DoRelease(k) => var outcome := Release(b, k, now);
    case DoFinalize(k) => FinalizeAdds(b, k, now);
    case _ =>
  }

  lemma FinalizeAdds(b: Books, k: nat, now: int)
    ensures Adds(b, Step(b, DoFinalize(k), now), DoFinalize(k), now)
  {
    var outcome := Finalize(b, k, now);
  }

  /** Over every run an attempt leaves "reserved" at most once: whatever it became, it stays, receipt included. */
  lemma {:induction false} RunLater(b: Books, opening: nat -> nat, ops: seq<(Op, int)>)
    requires Inv(b, opening)
    ensures Later(b, Run(b, ops))
  {
    if ops != [] {
      var before := ops[..|ops| - 1];
      RunLater(b, opening, before);
      RunKeeps(b, opening, before);
      StepLater(Run(b, before), opening, ops[|ops| - 1].0, ops[|ops| - 1].1);
      var m, t := Run(b, before), Run(b, ops);
      forall k | 0 <= k < |b.attempts| ensures Persists(b.attempts[k], t.attempts[k]) {
        assert Persists(b.attempts[k], m.attempts[k]) && Persists(m.attempts[k], t.attempts[k]);
      }
    }
  }

  // The daily cap.

  ghost predicate Capped(b: Books, cap: nat) {
    forall c :: 0 <= c < |b.days| ==> b.days[c].spent + b.days[c].reserved <= cap
  }

  predicate WithinCap(op: Op, cap: nat) {
    op.DoReserve? ==> op.request.dailyLimit <= cap
  }

  lemma StepCapped(b: Books, op: Op, now: int, cap: nat)
    requires Capped(b, cap) && WithinCap(op, cap)
    ensures Capped(Step(b, op, now), cap)
  {}

  /** With a fixed daily limit no day ever holds more than it, historical spending included. */
  lemma {:induction false} RunCapped(b: Books, ops: seq<(Op, int)>, cap: nat)
    requires Capped(b, cap) && forall i :: 0 <= i < |ops| ==> WithinCap(ops[i].0, cap)
    ensures Capped(Run(b, ops), cap)
  {
    if ops != [] {
      RunCapped(b, ops[..|ops| - 1], cap);
      StepCapped(Run(b, ops[..|ops| - 1]), ops[|ops| - 1].0, ops[|ops| - 1].1, cap);
    }
  }

  // Single use.

  predicate Live(a: Attempt) {
    a.day.Some? && a.reserve != Released
  }

  predicate PositiveRequest(op: Op) {
    op.DoReserve? ==> op.request.amount > 0
  }

  ghost predicate PositiveAttempts(b: Books) {
    forall k :: 0 <= k < |b.attempts| && b.attempts[k].day.Some? ==> b.attempts[k].amount > 0
  }

  ghost predicate AtMostOneLive(b: Books, i: nat) {
    forall j, k :: 0 <= j < k < |b.attempts| && b.attempts[j].session == i && b.attempts[k].session == i ==>
                     !(Live(b.attempts[j]) && Live(b.attempts[k]))
  }

  lemma NothingLive(b: Books, opening: nat -> nat, i: nat)
    requires Inv(b, opening) && PositiveAttempts(b) && i < |b.passes|
    requires b.passes[i].spent + b.passes[i].reserved == 0
    ensures forall k :: 0 <= k < |b.attempts| && b.attempts[k].session == i ==> !Live(b.attempts[k])
  {
    assert PassOk(b, opening, i);
    forall k | 0 <= k < |b.attempts| && b.attempts[k].session == i ensures !Live(b.attempts[k]) {
      TallyMember(b.attempts, k, HeldOn(i));
      TallyMember(b.attempts, k, TakenOn(i));
    }
  }

  lemma StepSingleUse(b: Books, opening: nat -> nat, op: Op, now: int, i: nat)
    requires Inv(b, opening) && PositiveAttempts(b) && PositiveRequest(op)
    requires i < |b.passes| && b.passes[i].singleUse && AtMostOneLive(b, i)
    ensures var m := Step(b, op, now);
            PositiveAttempts(m) && |b.passes| <= |m.passes| && m.passes[i].singleUse && AtMostOneLive(m, i)
  {
    var m := Step(b, op, now);
    StepLater(b, opening, op, now);
    StepAdds(b, op, now);
    forall k | 0 <= k < |b.attempts| ensures m.attempts[k].session == b.attempts[k].session
                                       && m.attempts[k].amount == b.attempts[k].amount
                                       && m.attempts[k].day == b.attempts[k].day
                                       && (Live(m.attempts[k]) ==> Live(b.attempts[k]))
    {
      assert Persists(b.attempts[k], m.attempts[k]);
    }
    if |m.attempts| > |b.attempts| && m.attempts[|b.attempts|].session == i {
      NothingLive(b, opening, i);
    }
  }

  /** With positive amounts, a single-use pass never has more than one attempt reserved or debited. */
  lemma {:induction false} RunSingleUse(b: Books, opening: nat -> nat, ops: seq<(Op, int)>, i: nat)
    requires Inv(b, opening) && PositiveAttempts(b) && forall j :: 0 <= j < |ops| ==> PositiveRequest(ops[j].0)
    requires i < |b.passes| && b.passes[i].singleUse && AtMostOneLive(b, i)
    ensures var m := Run(b, ops);
            PositiveAttempts(m) && |b.passes| <= |m.passes| && m.passes[i].singleUse && AtMostOneLive(m, i)
  {
    if ops != [] {
      var before := ops[..|ops| - 1];
      RunSingleUse(b, opening, before, i);
      RunKeeps(b, opening, before);
      StepSingleUse(Run(b, before), opening, ops[|ops| - 1].0, ops[|ops| - 1].1, i);
    }
  }

  lemma RunSnoc(b: Books, ops: seq<(Op, int)>, op: Op, now: int)
    ensures Run(b, ops + [(op, now)]) == Step(Run(b, ops), op, now)
  {
    assert (ops + [(op, now)])[..|ops|] == ops;
  }

  lemma RunOne(b: Books, op: Op, now: int)
    ensures Run(b, [(op, now)]) == Step(b, op, now)
  {
    RunSnoc(b, [], op, now);
    assert [] + [(op, now)] == [(op, now)];
  }

  /** RunSingleUse needs its positive amounts, which the only caller ensures before it reserves: the guard alone
      lets two zero amounts be reserved on one single-use pass. */
  lemma ZeroAmountsDefeatSingleUse()
    ensures var b := Books([Pass(0, PassStatus.Active, true, true, 10, 0, 0)], [], [], Funding.Ledger([], []));
            var r := Request(0, 0, "first", 0, 10, 0, false, true, 0);
            Start(b) && !AtMostOneLive(Run(b, [(DoReserve(r), 0)] + [(DoReserve(r.(key := "second")), 0)]), 0)
  {
    var b := Books([Pass(0, PassStatus.Active, true, true, 10, 0, 0)], [], [], Funding.Ledger([], []));
    var r := Request(0, 0, "first", 0, 10, 0, false, true, 0);
    var r2 := r.(key := "second");
    RunOne(b, DoReserve(r), 0);
    RunSnoc(b, [(DoReserve(r), 0)], DoReserve(r2), 0);
    ReserveFirst(b, r);
    ReserveZero(Step(b, DoReserve(r), 0), r2);
  }

  lemma ReserveFirst(b: Books, r: Request)
    requires b == Books([Pass(0, PassStatus.Active, true, true, 10, 0, 0)], [], [], Funding.Ledger([], []))
    requires r == Request(0, 0, "first", 0, 10, 0, false, true, 0)
    ensures var once := Step(b, DoReserve(r), 0);
            once.attempts == [NewAttempt(r, 0)] && once.passes == b.passes && once.days == [DayCounter(0, 0, 0, 0, 0)]
  {
    assert WithDay(b, 0, 0) == [DayCounter(0, 0, 0, 0, 0)];
    assert FindDay(WithDay(b, 0, 0), 0, 0) == Some(0);
  }

  lemma ReserveZero(once: Books, r: Request)
    requires r.key == "second" && r.session == r.owner == r.amount == 0 && r.dailyLimit == 10 && r.matches
    requires once.passes == [Pass(0, PassStatus.Active, true, true, 10, 0, 0)] && once.days == [DayCounter(0, 0, 0, 0, 0)]
    requires |once.attempts| == 1 && once.attempts[0].key == "first"
    requires once.attempts[0].session == 0 && Live(once.attempts[0])
    ensures !AtMostOneLive(Step(once, DoReserve(r), 0), 0)
  {
    assert FindAttempt(once.attempts, 0, "second").None?;
    assert FindDay(once.days, 0, 0) == Some(0);
    var m := Step(once, DoReserve(r), 0);
    assert m.attempts == once.attempts + [NewAttempt(r, 0)];
    assert Live(m.attempts[0]) && Live(m.attempts[1]) && m.attempts[1].session == 0;
  }

  // Days against the pass.

  /** A pass has spent, beyond its opening, exactly the sum over its days if and only if none of its day counters
      was seeded from history. */
  lemma SpentIsSumOfDays(b: Books, opening: nat -> nat, i: nat)
    requires Inv(b, opening) && i < |b.passes|
    ensures b.passes[i].spent == opening(i) + Tally(b.days, SpentAcross(i)) <==> Tally(b.days, SeededAcross(i)) == 0
    ensures b.passes[i].reserved == Tally(b.days, ReservedAcross(i))
  {
    assert PassOk(b, opening, i);
  }

  ghost predicate Unseeded(b: Books) {
    && (forall k :: 0 <= k < |b.attempts| ==> b.attempts[k].day == Some(b.attempts[k].createdDay))
    && (forall c :: 0 <= c < |b.days| ==> b.days[c].seed == 0)
  }

  /** The attempt is stored on the day it is reserved for. */
  predicate NoSkew(op: Op, now: int) {
    op.DoReserve? ==> DayOf(op.request.createdAt) == DayOf(now)
  }

  /** Only a reservation adds a day counter, and no step changes a seed. */
  ghost predicate SameSeeds(days: seq<DayCounter>, later: seq<DayCounter>) {
    |later| == |days| && forall c :: 0 <= c < |days| ==> later[c].seed == days[c].seed && later[c].session == days[c].session
  }

  lemma OtherSeeds(b: Books, op: Op, now: int)
    requires !op.DoReserve?
    ensures SameSeeds(b.days, Step(b, op, now).days)
  {
    match op
    case DoRelease(k) => var outcome := Release(b, k, now);
    case DoFinalize(k) => var outcome := Finalize(b, k, now);
    case _ =>
  }

  lemma ReserveSeeds(b: Books, opening: nat -> nat, r: Request, now: int)
    requires Inv(b, opening) && Unseeded(b)
    ensures forall c :: 0 <= c < |Step(b, DoReserve(r), now).days| ==> Step(b, DoReserve(r), now).days[c].seed == 0
  {
    var i, d := r.session, DayOf(now);
    if FindDay(b.days, i, d).None? {
      forall k | 0 <= k < |b.attempts| ensures HistoryOn(i, d)(b.attempts[k]) == 0 {
        assert AttemptOk(b, k);
      }
      TallyZero(b.attempts, HistoryOn(i, d));
    }
  }

  lemma StepUnseeded(b: Books, opening: nat -> nat, op: Op, now: int)
    requires Inv(b, opening) && Unseeded(b) && NoSkew(op, now)
    ensures Unseeded(Step(b, op, now))
  {
    var m := Step(b, op, now);
    StepLater(b, opening, op, now);
    StepAdds(b, op, now);
    forall k | 0 <= k < |m.attempts| ensures m.attempts[k].day == Some(m.attempts[k].createdDay) {
      assert k < |b.attempts| ==> Persists(b.attempts[k], m.attempts[k]);
    }
    if op.DoReserve? {
      ReserveSeeds(b, opening, op.request, now);
    } else {
      OtherSeeds(b, op, now);
    }
  }

  /** Without history and without clock skew no counter is ever seeded, so the days add up to the pass. */
  lemma {:induction false} RunUnseeded(b: Books, opening: nat -> nat, ops: seq<(Op, int)>)
    requires Inv(b, opening) && Unseeded(b) && forall j :: 0 <= j < |ops| ==> NoSkew(ops[j].0, ops[j].1)
    ensures Unseeded(Run(b, ops))
    ensures forall i :: 0 <= i < |Run(b, ops).passes| ==>
              Run(b, ops).passes[i].spent == opening(i) + Tally(Run(b, ops).days, SpentAcross(i))
  {
    RunKeeps(b, opening, ops);
    var m := Run(b, ops);
    if ops != [] {
      var before := ops[..|ops| - 1];
      RunUnseeded(b, opening, before);
      RunKeeps(b, opening, before);
      StepUnseeded(Run(b, before), opening, ops[|ops| - 1].0, ops[|ops| - 1].1);
    }
    forall i | 0 <= i < |m.passes| ensures m.passes[i].spent == opening(i) + Tally(m.days, SpentAcross(i)) {
      TallyZero(m.days, SeededAcross(i));
      SpentIsSumOfDays(m, opening, i);
    }
  }

  /** The reservation commits and opens the counter of its day. */
  predicate Opens(b: Books, r: Request, now: int) {
    && FindAttempt(b.attempts, r.session, r.key).None? && FindDay(b.days, r.session, DayOf(now)).None?
    && r.session < |b.passes| && PassAccepts(b.passes[r.session], r)
    && Tally(b.attempts, HistoryOn(r.session, DayOf(now))) + r.amount <= r.dailyLimit
  }

  /** Step `op` opens a counter of pass `i` on a day whose stored attempts already hold succeeded amounts. */
  predicate CountsHistory(b: Books, op: Op, now: int, i: nat) {
    && op.DoReserve? && op.request.session == i && Opens(b, op.request, now)
    && Tally(b.attempts, HistoryOn(i, DayOf(now))) > 0
  }

  /** What a committed reservation does to the day counters. */
  lemma ReservedDays(b: Books, r: Request, now: int)
    requires FindAttempt(b.attempts, r.session, r.key).None? && Reserve(b, r, now).Ok?
    ensures var days := WithDay(b, r.session, DayOf(now));
            && FindDay(days, r.session, DayOf(now)).Some?
            && var c := FindDay(days, r.session, DayOf(now)).value;
               Reserve(b, r, now).value.days == days[c := days[c].(reserved := days[c].reserved + r.amount)]
    ensures FindDay(b.days, r.session, DayOf(now)).None? ==> Opens(b, r, now)
  {}

  lemma OpenedDay(b: Books, session: nat, day: int, i: nat)
    ensures Tally(WithDay(b, session, day), SeededAcross(i)) ==
            Tally(b.days, SeededAcross(i)) +
            (if i == session && FindDay(b.days, session, day).None? then Tally(b.attempts, HistoryOn(session, day)) else 0)
  {
    if FindDay(b.days, session, day).None? {
      TallyAppend(b.days, WithDay(b, session, day)[|b.days|], SeededAcross(i));
    }
  }

  lemma OpensCommits(b: Books, r: Request, now: int)
    requires Opens(b, r, now)
    ensures Reserve(b, r, now).Ok?
  {}

  lemma OpeningDays(b: Books, r: Request, now: int, i: nat)
    ensures Tally(Step(b, DoReserve(r), now).days, SeededAcross(i)) ==
            Tally(b.days, SeededAcross(i)) +
            (if i == r.session && Opens(b, r, now) then Tally(b.attempts, HistoryOn(i, DayOf(now))) else 0)
  {
    if Opens(b, r, now) {
      OpensCommits(b, r, now);
    }
    if FindAttempt(b.attempts, r.session, r.key).None? && Reserve(b, r, now).Ok? {
      var days := WithDay(b, r.session, DayOf(now));
      ReservedDays(b, r, now);
      OpenedDay(b, r.session, DayOf(now), i);
      ReservedAcrossDays(days, FindDay(days, r.session, DayOf(now)).value, r.amount, i);
    }
  }

  lemma StepSeeds(b: Books, op: Op, now: int, i: nat)
    ensures var seeded, later := Tally(b.days, SeededAcross(i)), Tally(Step(b, op, now).days, SeededAcross(i));
            seeded <= later && (seeded < later <==> CountsHistory(b, op, now, i))
  {
    if op.DoReserve? {
      OpeningDays(b, op.request, now, i);
    } else {
      OtherSeeds(b, op, now);
      TallyEqual(b.days, SeededAcross(i), Step(b, op, now).days, SeededAcross(i));
    }
  }

  /** Step `j` of the run opens such a counter. */
  predicate CountsAt(b: Books, ops: seq<(Op, int)>, j: nat, i: nat)
    requires j < |ops|
  {
    CountsHistory(Run(b, ops[..j]), ops[j].0, ops[j].1, i)
  }

  ghost predicate NeverCounts(b: Books, ops: seq<(Op, int)>, i: nat) {
    forall j :: 0 <= j < |ops| ==> !CountsAt(b, ops, j, i)
  }

  lemma CountsBefore(b: Books, ops: seq<(Op, int)>, n: nat, j: nat, i: nat)
    requires j < n <= |ops|
    ensures CountsAt(b, ops[..n], j, i) == CountsAt(b, ops, j, i)
  {
    assert ops[..n][..j] == ops[..j];
  }

  lemma NeverCountsSnoc(b: Books, ops: seq<(Op, int)>, n: nat, i: nat)
    requires |ops| == n + 1
    ensures NeverCounts(b, ops, i) <==> NeverCounts(b, ops[..n], i) && !CountsAt(b, ops, n, i)
  {
    forall j | 0 <= j < n ensures CountsAt(b, ops[..n], j, i) == CountsAt(b, ops, j, i) {
      CountsBefore(b, ops, n, j, i);
    }
  }

  lemma {:induction false} SeededIff(b: Books, ops: seq<(Op, int)>, i: nat)
    requires b.days == []
    ensures Tally(Run(b, ops).days, SeededAcross(i)) == 0 <==> NeverCounts(b, ops, i)
  {
    if ops != [] {
      var n := |ops| - 1;
      SeededIff(b, ops[..n], i);
      NeverCountsSnoc(b, ops, n, i);
      StepSeeds(Run(b, ops[..n]), ops[n].0, ops[n].1, i);
    }
  }

  /** Over any run a pass has spent, beyond its opening, exactly the sum over its days if and only if no reservation
      opened one of its day counters after attempts stored on that day had succeeded: those amounts are then in
      the new counter and, as opening or on another day, once more. */
  lemma DaysAddUpIff(b: Books, ops: seq<(Op, int)>, i: nat)
    requires Start(b) && i < |Run(b, ops).passes|
    ensures var m := Run(b, ops);
            m.passes[i].spent == Opening(b)(i) + Tally(m.days, SpentAcross(i)) <==> NeverCounts(b, ops, i)
  {
    StartHolds(b);
    RunKeeps(b, Opening(b), ops);
    SpentIsSumOfDays(Run(b, ops), Opening(b), i);
    SeededIff(b, ops, i);
  }

  function LatePass(spent: nat, reserved: nat): Pass {
    Pass(0, PassStatus.Active, true, false, 10, spent, reserved)
  }

  function LateRequest(key: string): Request {
    Request(0, 0, key, 3, 10, 0, true, true, DAY_MS)
  }

  function LateOps(): seq<(Op, int)> {
    [(DoReserve(LateRequest("late")), DAY_MS - 1)] + [(DoSucceed(0, 7), DAY_MS)] + [(DoFinalize(0), DAY_MS)]
    + [(DoReserve(LateRequest("next")), DAY_MS)]
  }

  lemma LateRun(b: Books)
    ensures Run(b, LateOps())
            == Step(Step(Step(Step(b, DoReserve(LateRequest("late")), DAY_MS - 1), DoSucceed(0, 7), DAY_MS), DoFinalize(0), DAY_MS),
                    DoReserve(LateRequest("next")), DAY_MS)
  {
    var first := [(DoReserve(LateRequest("late")), DAY_MS - 1)];
    RunOne(b, DoReserve(LateRequest("late")), DAY_MS - 1);
    RunSnoc(b, first, DoSucceed(0, 7), DAY_MS);
    RunSnoc(b, first + [(DoSucceed(0, 7), DAY_MS)], DoFinalize(0), DAY_MS);
    RunSnoc(b, first + [(DoSucceed(0, 7), DAY_MS)] + [(DoFinalize(0), DAY_MS)], DoReserve(LateRequest("next")), DAY_MS);
  }

  /** Skew does break it: an attempt reserved at the end of one day and stored on the next is counted on both. */
  lemma SkewCountsTwice()
    ensures var b := Books([LatePass(0, 0)], [], [], Funding.Ledger([], []));
            var m := Run(b, LateOps());
            && Start(b) && m.passes == [LatePass(3, 3)]
            && Tally(m.days, SpentAcross(0)) == 6
  {
    var b := Books([LatePass(0, 0)], [], [], Funding.Ledger([], []));
    LateRun(b);
    var b2 := LateSucceeded(b);
    LateFinalize(b2);
    LateReserve(Step(b2, DoFinalize(0), DAY_MS));
  }

  lemma LateSucceeded(b: Books) returns (b2: Books)
    requires b == Books([LatePass(0, 0)], [], [], Funding.Ledger([], []))
    ensures b2 == Step(Step(b, DoReserve(LateRequest("late")), DAY_MS - 1), DoSucceed(0, 7), DAY_MS)
    ensures b2 == Books([LatePass(0, 3)], [DayCounter(0, 0, 0, 0, 3)],
                        [NewAttempt(LateRequest("late"), DAY_MS - 1).(provider := Paid, proof := 7)], Funding.Ledger([], []))
  {
    var b1 := Step(b, DoReserve(LateRequest("late")), DAY_MS - 1);
    assert b1.attempts == [NewAttempt(LateRequest("late"), DAY_MS - 1)] && b1.passes == [LatePass(0, 3)];
    assert b1.days == [DayCounter(0, 0, 0, 0, 3)];
    b2 := Step(b1, DoSucceed(0, 7), DAY_MS);
  }

  lemma LateFinalize(b: Books)
    requires b.passes == [LatePass(0, 3)] && b.days == [DayCounter(0, 0, 0, 0, 3)] && b.funds == Funding.Ledger([], [])
    requires b.attempts == [NewAttempt(LateRequest("late"), DAY_MS - 1).(provider := Paid, proof := 7)]
    ensures var m := Step(b, DoFinalize(0), DAY_MS);
            && m.passes == [LatePass(3, 0)] && m.days == [DayCounter(0, 0, 0, 3, 0)]
            && |m.attempts| == 1 && m.attempts[0].status == Succeeded && m.attempts[0].createdDay == 1
            && m.attempts[0].session == 0 && m.attempts[0].amount == 3 && m.attempts[0].key == "late"
  {
    assert FindDay(b.days, 0, 0) == Some(0);
    assert Funding.Spend(b.funds, 0, 3, DAY_MS) == Ok(b.funds);
  }

  lemma LateSeed(b: Books)
    requires b.days == [DayCounter(0, 0, 0, 3, 0)] && |b.attempts| == 1
    requires b.attempts[0].status == Succeeded && b.attempts[0].createdDay == 1 && b.attempts[0].session == 0
    requires b.attempts[0].amount == 3 && b.attempts[0].key == "late"
    ensures FindAttempt(b.attempts, 0, "next").None?
    ensures WithDay(b, 0, 1) == b.days + [DayCounter(0, 1, 3, 3, 0)]
    ensures FindDay(WithDay(b, 0, 1), 0, 1) == Some(1)
  {
    assert b.attempts[..0] == [] && Tally(b.attempts, HistoryOn(0, 1)) == 3;
    assert FindDay(b.days, 0, 1).None?;
  }

  lemma LateReserve(b: Books)
    requires b.passes == [LatePass(3, 0)] && b.days == [DayCounter(0, 0, 0, 3, 0)] && |b.attempts| == 1
    requires b.attempts[0].status == Succeeded && b.attempts[0].createdDay == 1 && b.attempts[0].session == 0
    requires b.attempts[0].amount == 3 && b.attempts[0].key == "late"
    ensures var m := Step(b, DoReserve(LateRequest("next")), DAY_MS);
            m.passes == [LatePass(3, 3)] && Tally(m.days, SpentAcross(0)) == 6
  {
    LateSeed(b);
    var late := DayCounter(0, 1, 3, 3, 0);
    var m := Step(b, DoReserve(LateRequest("next")), DAY_MS);
    assert m.days == b.days + [late.(reserved := 3)];
    TallyAppend(b.days, late.(reserved := 3), SpentAcross(0));
    assert b.days[..0] == [] && Tally(b.days, SpentAcross(0)) == 3;
  }

  // Progress.

  lemma FindAllocationUnique(allocations: seq<Funding.Allocation>, k: nat)
    requires k < |allocations| && FundingInvariant.OnePerSession(allocations)
    ensures Funding.FindAllocation(allocations, allocations[k].session) == Some(k)
  {}

  predicate Touches(op: Funding.Op, session: nat) {
    match op
    case DoTopUp(s, _) => s == session
    case DoSpend(s, _) => s == session
    case DoRelease(s) => s == session
    case _ => false
  }

  lemma SourceOpStays(l: Funding.Ledger, op: Funding.Op, now: int)
    requires op.AddConnected? || op.SeeConnected? || op.AddProof? || op.MoreProof? || op.SeeSecured?
    ensures Funding.Step(l, op, now).allocations == l.allocations
  {}

  lemma AllocateStays(l: Funding.Ledger, i: nat, s: nat, amount: nat, now: int, k: nat)
    requires k < |l.allocations|
    ensures var m := Funding.Step(l, Funding.DoAllocate(i, s, amount), now);
            k < |m.allocations| && m.allocations[k] == l.allocations[k]
  {}

  lemma MovementStays(l: Funding.Ledger, op: Funding.Op, now: int, session: nat, k: nat)
    requires op.DoTopUp? || op.DoSpend? || op.DoRelease?
    requires !Touches(op, session) && Funding.FindAllocation(l.allocations, session) == Some(k)
    ensures var m := Funding.Step(l, op, now);
            k < |m.allocations| && m.allocations[k] == l.allocations[k]
  {
    var found := Funding.FindAllocation(l.allocations, op.session);
    assert found.Some? ==> found.value != k;
  }

  /** A funding step on anything else leaves a session's allocation as it is. */
  lemma AllocationStays(l: Funding.Ledger, op: Funding.Op, now: int, session: nat, k: nat)
    requires FundingInvariant.Inv(l) && !Touches(op, session)
    requires Funding.FindAllocation(l.allocations, session) == Some(k)
    ensures var m := Funding.Step(l, op, now);
            Funding.FindAllocation(m.allocations, session) == Some(k) && m.allocations[k] == l.allocations[k]
  {
    FundingInvariant.StepKeeps(l, op, now);
    match op
    case DoAllocate(i, s, amount) => AllocateStays(l, i, s, amount, now, k);
    case DoTopUp(_, _) => MovementStays(l, op, now, session, k);
    case DoSpend(_, _) => MovementStays(l, op, now, session, k);
    case DoRelease(_) => MovementStays(l, op, now, session, k);
    case _ => SourceOpStays(l, op, now);
    FindAllocationUnique(Funding.Step(l, op, now).allocations, k);
  }

  /** The allocation of pass `i` began with the whole limit and mirrors what the pass has spent; once a
      single-use pass has spent, it holds nothing more. */
  ghost predicate Mirrored(b: Books, i: nat, k: nat)
    requires i < |b.passes|
  {
    var p := b.passes[i];
    && Funding.FindAllocation(b.funds.allocations, i) == Some(k)
    && b.funds.allocations[k].authorized == p.limit
    && (p.singleUse && p.spent > 0 ==> p.reserved == 0)
    && (!(p.singleUse && p.spent > 0) ==> b.funds.allocations[k].spent == p.spent && b.funds.allocations[k].released == 0)
  }

  /** No other service releases, tops up or spends the pass's allocation, or raises its limit. */
  predicate Undisturbed(op: Op, i: nat) {
    match op
    case Fund(fop) => !Touches(fop, i)
    case Administer(j, _, _, extra) => j == i ==> extra == 0
    case _ => true
  }

  lemma SpendElsewhere(l: Funding.Ledger, session: nat, amount: nat, now: int, i: nat, k: nat)
    requires FundingInvariant.Inv(l) && Funding.Spend(l, session, amount, now).Ok? && session != i
    requires Funding.FindAllocation(l.allocations, i) == Some(k)
    ensures var m := Funding.Spend(l, session, amount, now).value;
            && FundingInvariant.Inv(m)
            && Funding.FindAllocation(m.allocations, i) == Some(k) && m.allocations[k] == l.allocations[k]
  {
    var op := Funding.DoSpend(session, amount);
    AllocationStays(l, op, now, i, k);
    FundingInvariant.SpendKeeps(l, session, amount, now);
    assert Funding.Attempt(l, op, now) == Funding.Spend(l, session, amount, now);
  }

  lemma ReleaseElsewhere(l: Funding.Ledger, session: nat, now: int, i: nat, k: nat)
    requires FundingInvariant.Inv(l) && Funding.Release(l, session, now).Ok? && session != i
    requires Funding.FindAllocation(l.allocations, i) == Some(k)
    ensures var m := Funding.Release(l, session, now).value;
            Funding.FindAllocation(m.allocations, i) == Some(k) && m.allocations[k] == l.allocations[k]
  {
    var op := Funding.DoRelease(session);
    AllocationStays(l, op, now, i, k);
    assert Funding.Attempt(l, op, now) == Funding.Release(l, session, now);
  }

  lemma SpendHere(l: Funding.Ledger, amount: nat, now: int, i: nat, k: nat)
    requires FundingInvariant.Inv(l) && Funding.Spend(l, i, amount, now).Ok?
    requires Funding.FindAllocation(l.allocations, i) == Some(k)
    ensures var spent := Funding.Spend(l, i, amount, now).value;
            && FundingInvariant.Inv(spent)
            && Funding.FindAllocation(spent.allocations, i) == Some(k)
            && spent.allocations[k].authorized == l.allocations[k].authorized
            && spent.allocations[k].spent == l.allocations[k].spent + amount
            && spent.allocations[k].released == l.allocations[k].released
  {
    FundingInvariant.SpendKeeps(l, i, amount, now);
    FindAllocationUnique(Funding.Spend(l, i, amount, now).value.allocations, k);
  }

  lemma ReleaseHere(l: Funding.Ledger, now: int, i: nat, k: nat)
    requires FundingInvariant.Inv(l) && Funding.Release(l, i, now).Ok?
    requires Funding.FindAllocation(l.allocations, i) == Some(k)
    ensures var m := Funding.Release(l, i, now).value;
            && Funding.FindAllocation(m.allocations, i) == Some(k)
            && m.allocations[k].authorized == l.allocations[k].authorized
  {
    FundingInvariant.ReleaseKeeps(l, i, now);
    FindAllocationUnique(Funding.Release(l, i, now).value.allocations, k);
  }

  lemma FinalizeMirrored(b: Books, opening: nat -> nat, j: nat, now: int, i: nat, k: nat)
    requires Inv(b, opening) && PositiveAttempts(b) && i < |b.passes| && Mirrored(b, i, k)
    requires b.passes[i].singleUse ==> AtMostOneLive(b, i)
    requires Finalize(b, j, now).Ok?
    ensures Mirrored(Finalize(b, j, now).value, i, k)
  {
    var m, a := Finalize(b, j, now).value, b.attempts[j];
    if !(a.status == Succeeded && a.reserve == Debited) {
      if a.session != i {
        SpendElsewhere(b.funds, a.session, a.amount, now, i, k);
        if b.passes[a.session].singleUse {
          ReleaseElsewhere(Funding.Spend(b.funds, a.session, a.amount, now).value, a.session, now, i, k);
        }
      } else {
        SpendHere(b.funds, a.amount, now, i, k);
        if b.passes[i].singleUse {
          ReleaseHere(Funding.Spend(b.funds, i, a.amount, now).value, now, i, k);
          OnlyHolder(b, opening, j, i);
        }
      }
    }
  }

  /** The one live attempt of a single-use pass holds all its pass has reserved. */
  lemma OnlyHolder(b: Books, opening: nat -> nat, j: nat, i: nat)
    requires Inv(b, opening) && i < |b.passes| && AtMostOneLive(b, i)
    requires j < |b.attempts| && b.attempts[j].session == i && b.attempts[j].day.Some? && b.attempts[j].reserve == Reserved
    ensures b.passes[i].reserved == b.attempts[j].amount
  {
    assert PassOk(b, opening, i);
    var a := b.attempts[j];
    var without := b.attempts[j := a.(reserve := Released)];
    TallyUpdate(b.attempts, j, a.(reserve := Released), HeldOn(i));
    forall k | 0 <= k < |without| ensures HeldOn(i)(without[k]) == 0 {}
    TallyZero(without, HeldOn(i));
  }

  lemma MirroredKept(b: Books, m: Books, i: nat, k: nat)
    requires i < |b.passes| <= |m.passes| && Mirrored(b, i, k) && m.funds == b.funds
    requires m.passes[i].limit == b.passes[i].limit && m.passes[i].spent == b.passes[i].spent
    requires m.passes[i].singleUse == b.passes[i].singleUse
    requires m.passes[i].singleUse && m.passes[i].spent > 0 ==> m.passes[i].reserved <= b.passes[i].reserved
    ensures Mirrored(m, i, k)
  {}

  lemma ReserveMirrored(b: Books, r: Request, now: int, i: nat, k: nat)
    requires i < |b.passes| && Mirrored(b, i, k)
    ensures |b.passes| <= |Step(b, DoReserve(r), now).passes| && Mirrored(Step(b, DoReserve(r), now), i, k)
  {
    var outcome := Reserve(b, r, now);
    MirroredKept(b, Step(b, DoReserve(r), now), i, k);
  }

  lemma ReleaseMirrored(b: Books, j: nat, now: int, i: nat, k: nat)
    requires i < |b.passes| && Mirrored(b, i, k)
    ensures |b.passes| <= |Step(b, DoRelease(j), now).passes| && Mirrored(Step(b, DoRelease(j), now), i, k)
  {
    var outcome := Release(b, j, now);
    MirroredKept(b, Step(b, DoRelease(j), now), i, k);
  }

  lemma StepMirrored(b: Books, opening: nat -> nat, op: Op, now: int, i: nat, k: nat)
    requires Inv(b, opening) && PositiveAttempts(b) && PositiveRequest(op)
    requires i < |b.passes| && Mirrored(b, i, k) && Undisturbed(op, i)
    requires b.passes[i].singleUse ==> AtMostOneLive(b, i)
    ensures |b.passes| <= |Step(b, op, now).passes| && Mirrored(Step(b, op, now), i, k)
  {
    match op
    case DoReserve(r) => ReserveMirrored(b, r, now, i, k);
    case DoRelease(j) => ReleaseMirrored(b, j, now, i, k);
    case DoFinalize(j) =>
      if Finalize(b, j, now).Ok? {
        FinalizeMirrored(b, opening, j, now, i, k);
      }
    case Fund(fop) => AllocationStays(b.funds, fop, now, i, k);
    case _ => MirroredKept(b, Step(b, op, now), i, k);
  }

  ghost predicate Fundable(b: Books, opening: nat -> nat, i: nat, k: nat) {
    && Inv(b, opening) && PositiveAttempts(b)
    && i < |b.passes| && Mirrored(b, i, k)
    && (b.passes[i].singleUse ==> AtMostOneLive(b, i))
  }

  lemma {:induction false} RunFundable(b: Books, opening: nat -> nat, ops: seq<(Op, int)>, i: nat, k: nat)
    requires Fundable(b, opening, i, k)
    requires forall j :: 0 <= j < |ops| ==> PositiveRequest(ops[j].0) && Undisturbed(ops[j].0, i)
    ensures Fundable(Run(b, ops), opening, i, k)
    ensures |b.passes| <= |Run(b, ops).passes| && Run(b, ops).passes[i].singleUse == b.passes[i].singleUse
  {
    if ops != [] {
      var n := |ops| - 1;
      RunFundable(b, opening, ops[..n], i, k);
      StepFundable(Run(b, ops[..n]), opening, ops[n].0, ops[n].1, i, k);
    }
  }

  lemma StepPositive(b: Books, opening: nat -> nat, op: Op, now: int)
    requires Inv(b, opening) && PositiveAttempts(b) && PositiveRequest(op)
    ensures PositiveAttempts(Step(b, op, now))
  {
    StepLater(b, opening, op, now);
  }

  lemma StepPasses(b: Books, op: Op, now: int, i: nat)
    requires i < |b.passes|
    ensures |b.passes| <= |Step(b, op, now).passes| && Step(b, op, now).passes[i].singleUse == b.passes[i].singleUse
  {}

  lemma StepFundable(m: Books, opening: nat -> nat, op: Op, now: int, i: nat, k: nat)
    requires Fundable(m, opening, i, k) && PositiveRequest(op) && Undisturbed(op, i)
    ensures Fundable(Step(m, op, now), opening, i, k)
    ensures |m.passes| <= |Step(m, op, now).passes| && Step(m, op, now).passes[i].singleUse == m.passes[i].singleUse
  {
    StepKeeps(m, opening, op, now);
    StepMirrored(m, opening, op, now, i, k);
    StepPositive(m, opening, op, now);
    StepPasses(m, op, now, i);
    if m.passes[i].singleUse {
      StepSingleUse(m, opening, op, now, i);
    }
  }

  /** The source is not in a shortfall and its counters stay safe integers. */
  ghost predicate Covers(s: Funding.Source, amount: nat, limit: nat) {
    !FundingInvariant.InShortfall(s) && s.spent + amount <= MAX_SAFE && s.released + limit <= MAX_SAFE
  }

  /** A paid, reserved attempt of such a pass can be finalized as soon as its source is not in a shortfall and
      the source's counters stay safe integers: no counter, allocation or source guard on the way fires. */
  lemma PaidAttemptFinalizes(b: Books, opening: nat -> nat, i: nat, k: nat, j: nat, now: int)
    requires Fundable(b, opening, i, k)
    requires j < |b.attempts| && b.attempts[j].session == i && b.attempts[j].day.Some?
    requires b.attempts[j].provider == Paid && b.attempts[j].reserve == Reserved
    ensures b.funds.allocations[k].source < |b.funds.sources|
    ensures var s, p := b.funds.sources[b.funds.allocations[k].source], b.passes[i];
            && (Covers(s, b.attempts[j].amount, p.limit) ==> Finalize(b, j, now).Ok?)
            && (Finalize(b, j, now).Ok? ==> !FundingInvariant.InShortfall(s))
  {
    var a := b.attempts[j];
    assert AttemptOk(b, j) && PassOk(b, opening, i);
    Counted(b, opening, j);
    var al := b.funds.allocations[k];
    assert FundingInvariant.AllocationFields(al, |b.funds.sources|);
    assert al.remaining == b.passes[i].limit - b.passes[i].spent;
    FundingInvariant.SpendCommitsIff(b.funds, i, a.amount, now);
    var s := b.funds.sources[al.source];
    if Covers(s, a.amount, b.passes[i].limit) {
      SpentThenReleases(b.funds, i, k, a.amount, now);
    }
  }

  /** Right after a committed spend the rest of the allocation can be released. */
  lemma SpentThenReleases(l: Funding.Ledger, i: nat, k: nat, amount: nat, now: int)
    requires FundingInvariant.Inv(l) && Funding.FindAllocation(l.allocations, i) == Some(k)
    requires Funding.Spend(l, i, amount, now).Ok?
    requires l.allocations[k].source < |l.sources|
    requires l.sources[l.allocations[k].source].released + l.allocations[k].remaining <= MAX_SAFE
    ensures Funding.Release(Funding.Spend(l, i, amount, now).value, i, now).Ok?
  {
    FundingInvariant.SpendKeeps(l, i, amount, now);
    assert FundingInvariant.AllocationFields(l.allocations[k], |l.sources|);
    var spent := Funding.Spend(l, i, amount, now).value;
    FindAllocationUnique(spent.allocations, k);
    FundingInvariant.ReleaseCommitsIff(spent, i, now);
    assert FundingInvariant.AllocationFields(spent.allocations[k], |spent.sources|);
  }

  lemma {:induction false} RunPositive(b: Books, opening: nat -> nat, ops: seq<(Op, int)>)
    requires Inv(b, opening) && PositiveAttempts(b) && forall j :: 0 <= j < |ops| ==> PositiveRequest(ops[j].0)
    ensures PositiveAttempts(Run(b, ops))
  {
    if ops != [] {
      var n := |ops| - 1;
      RunPositive(b, opening, ops[..n]);
      RunKeeps(b, opening, ops[..n]);
      StepPositive(Run(b, ops[..n]), opening, ops[n].0, ops[n].1);
    }
  }

  /** Nothing was charged to the pass yet and an untouched allocation covers its whole limit. */
  ghost predicate FreshlyFunded(b: Books, i: nat, k: nat) {
    && i < |b.passes| && b.passes[i].spent == 0 && b.passes[i].reserved == 0
    && Funding.FindAllocation(b.funds.allocations, i) == Some(k)
    && var al := b.funds.allocations[k];
       al.authorized == b.passes[i].limit && al.spent == 0 && al.released == 0
  }

  /** Progress over runs: from the moment an unused pass of any run gets an allocation of its whole limit, if no
      amount is zero and no other service disturbs the allocation, every paid, reserved attempt of the pass can
      be finalized after any further run, whenever its source is not in a shortfall; single-use passes included. */
  lemma Progress(b: Books, before: seq<(Op, int)>, ops: seq<(Op, int)>, i: nat, k: nat, j: nat, now: int)
    requires Start(b) && FreshlyFunded(Run(b, before), i, k)
    requires forall n :: 0 <= n < |before| ==> PositiveRequest(before[n].0)
    requires forall n :: 0 <= n < |ops| ==> PositiveRequest(ops[n].0) && Undisturbed(ops[n].0, i)
    ensures var m := Run(Run(b, before), ops);
            j < |m.attempts| && m.attempts[j].session == i && m.attempts[j].day.Some?
            && m.attempts[j].provider == Paid && m.attempts[j].reserve == Reserved ==>
              && i < |m.passes| && k < |m.funds.allocations| && m.funds.allocations[k].source < |m.funds.sources|
              && (Covers(m.funds.sources[m.funds.allocations[k].source], m.attempts[j].amount, m.passes[i].limit) ==>
                    Finalize(m, j, now).Ok?)
  {
    StartHolds(b);
    var opening, start := Opening(b), Run(b, before);
    RunKeeps(b, opening, before);
    RunPositive(b, opening, before);
    NothingLive(start, opening, i);
    RunFundable(start, opening, ops, i, k);
    var m := Run(start, ops);
    if j < |m.attempts| && m.attempts[j].session == i && m.attempts[j].day.Some?
       && m.attempts[j].provider == Paid && m.attempts[j].reserve == Reserved {
      PaidAttemptFinalizes(m, opening, i, k, j, now);
    }
  }
}
