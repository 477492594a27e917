/** Conservation and shortfall safety of the funding ledger, over every run. */
module FundingInvariant {
  import opened Wrappers
  import opened Money
  import opened Tallies
  import opened Funding

  function RemainingOf(i: nat): Allocation -> nat {
    (a: Allocation) => if a.source == i then a.remaining else 0
  }

  function SpentOf(i: nat): Allocation -> nat {
    (a: Allocation) => if a.source == i then a.spent else 0
  }

  function ReleasedOf(i: nat): Allocation -> nat {
    (a: Allocation) => if a.source == i then a.released else 0
  }

  function Above(a: nat, b: nat): nat {
    if a > b then a - b else 0
  }

  /** What a source row guarantees whatever was observed: safe, proved, and its reservation counters agree. */
  ghost predicate SourceBasics(s: Source) {
    && SafeSource(s) && Storable(s)
    && (s.mode == Secured ==> s.reserved == s.authorized && s.available == s.locked)
    && (s.mode == Connected ==> s.reserved == 0 && s.locked == 0)
  }

  /** The reclaimable amount is exact, and a shortfall has a recorded failure. */
  ghost predicate SourceExact(s: Source) {
    && (s.mode == Secured ==> s.reclaimable == Above(s.locked, s.reserved) && (s.locked < s.reserved ==> s.failure.Some?))
    && (s.mode == Connected ==> s.reclaimable == Above(s.available, s.authorized))
  }

  ghost predicate SourceFields(s: Source) {
    SourceBasics(s) && SourceExact(s)
  }

  /** A source's counters are the sums over the allocations drawn on it. */
  ghost predicate SourceSums(l: Ledger, i: nat)
    requires i < |l.sources|
  {
    && l.sources[i].authorized == Tally(l.allocations, RemainingOf(i))
    && l.sources[i].spent == Tally(l.allocations, SpentOf(i))
    && l.sources[i].released == Tally(l.allocations, ReleasedOf(i))
  }

  ghost predicate AllocationFields(a: Allocation, sources: nat) {
    && a.source < sources && SafeAllocation(a)
    && a.authorized == a.spent + a.released + a.remaining
    && (a.state != Active ==> a.remaining == 0)
  }

  ghost predicate OnePerSession(allocations: seq<Allocation>) {
    forall j, k :: 0 <= j < k < |allocations| ==> allocations[j].session != allocations[k].session
  }

  /** Conservation: every counter is the sum it stands for. */
  ghost predicate Accounts(l: Ledger) {
    && (forall i :: 0 <= i < |l.sources| ==> SourceBasics(l.sources[i]))
    && (forall i :: 0 <= i < |l.sources| ==> SourceSums(l, i))
    && (forall k :: 0 <= k < |l.allocations| ==> AllocationFields(l.allocations[k], |l.sources|))
    && OnePerSession(l.allocations)
  }

  /** Shortfall safety. */
  ghost predicate Exact(l: Ledger) {
    forall i :: 0 <= i < |l.sources| ==> SourceExact(l.sources[i])
  }

  ghost predicate Inv(l: Ledger) {
    Accounts(l) && Exact(l)
  }

  lemma SourceFieldsOf(l: Ledger, i: nat)
    requires Inv(l) && i < |l.sources|
    ensures SourceFields(l.sources[i])
  {}

  // Conservation.

  /** Rewriting the observation fields of one source keeps the accounts. */
  lemma ReplaceSource(l: Ledger, i: nat, s: Source)
    requires Accounts(l) && i < |l.sources| && SourceBasics(s)
    requires s.authorized == l.sources[i].authorized && s.spent == l.sources[i].spent
    requires s.released == l.sources[i].released
    ensures Accounts(l.(sources := l.sources[i := s]))
  {
    var m := l.(sources := l.sources[i := s]);
    forall j | 0 <= j < |m.sources| ensures SourceSums(m, j) {
      assert SourceSums(l, j);
    }
  }

  lemma AddSource(l: Ledger, s: Source)
    requires Accounts(l) && SourceBasics(s) && s.authorized == 0 && s.spent == 0 && s.released == 0
    ensures Accounts(l.(sources := l.sources + [s]))
  {
    var m := l.(sources := l.sources + [s]);
    var n := |l.sources|;
    TallyZero(l.allocations, RemainingOf(n));
    TallyZero(l.allocations, SpentOf(n));
    TallyZero(l.allocations, ReleasedOf(n));
    forall j | 0 <= j < |m.sources| ensures SourceSums(m, j) {
      assert j < n ==> SourceSums(l, j);
    }
    forall k | 0 <= k < |m.allocations| ensures AllocationFields(m.allocations[k], |m.sources|) {
      assert AllocationFields(l.allocations[k], |l.sources|);
    }
  }

  /** Moving one allocation and its source by the same differences keeps the accounts. */
  lemma MoveTogether(l: Ledger, k: nat, a: Allocation, s: Source)
    requires Accounts(l) && k < |l.allocations|
    requires AllocationFields(a, |l.sources|) && SourceBasics(s)
    requires a.source == l.allocations[k].source && a.session == l.allocations[k].session
    requires var o, p := l.allocations[k], l.sources[a.source];
             && s.authorized + o.remaining == p.authorized + a.remaining
             && s.spent + o.spent == p.spent + a.spent
             && s.released + o.released == p.released + a.released
    ensures Accounts(Ledger(l.sources[a.source := s], l.allocations[k := a]))
  {
    var m := Ledger(l.sources[a.source := s], l.allocations[k := a]);
    forall i | 0 <= i < |m.sources| ensures SourceSums(m, i) {
      assert SourceSums(l, i);
      TallyUpdate(l.allocations, k, a, RemainingOf(i));
      TallyUpdate(l.allocations, k, a, SpentOf(i));
      TallyUpdate(l.allocations, k, a, ReleasedOf(i));
    }
    forall j | 0 <= j < |m.allocations| ensures AllocationFields(m.allocations[j], |m.sources|) {
      assert j != k ==> AllocationFields(l.allocations[j], |l.sources|);
    }
  }

  lemma AddedTallies(allocations: seq<Allocation>, a: Allocation, i: nat)
    ensures var more := allocations + [a];
            && Tally(more, RemainingOf(i)) == Tally(allocations, RemainingOf(i)) + (if a.source == i then a.remaining else 0)
            && Tally(more, SpentOf(i)) == Tally(allocations, SpentOf(i)) + (if a.source == i then a.spent else 0)
            && Tally(more, ReleasedOf(i)) == Tally(allocations, ReleasedOf(i)) + (if a.source == i then a.released else 0)
  {
    TallyAppend(allocations, a, RemainingOf(i));
    TallyAppend(allocations, a, SpentOf(i));
    TallyAppend(allocations, a, ReleasedOf(i));
  }

  lemma AddedSums(l: Ledger, a: Allocation, s: Source, i: nat)
    requires i < |l.sources| && SourceSums(l, i) && a.source < |l.sources|
    requires s.authorized == l.sources[a.source].authorized + a.remaining
    requires s.spent == l.sources[a.source].spent + a.spent
    requires s.released == l.sources[a.source].released + a.released
    ensures SourceSums(Ledger(l.sources[a.source := s], l.allocations + [a]), i)
  {
    AddedTallies(l.allocations, a, i);
  }

  lemma AddAllocation(l: Ledger, a: Allocation, s: Source)
    requires Accounts(l) && AllocationFields(a, |l.sources|) && SourceBasics(s)
    requires FindAllocation(l.allocations, a.session).None?
    requires s.authorized == l.sources[a.source].authorized + a.remaining
    requires s.spent == l.sources[a.source].spent + a.spent
    requires s.released == l.sources[a.source].released + a.released
    ensures Accounts(Ledger(l.sources[a.source := s], l.allocations + [a]))
  {
    var m := Ledger(l.sources[a.source := s], l.allocations + [a]);
    forall i | 0 <= i < |m.sources| ensures SourceSums(m, i) {
      AddedSums(l, a, s, i);
    }
    forall j | 0 <= j < |m.allocations| ensures AllocationFields(m.allocations[j], |m.sources|) {
      assert j < |l.allocations| ==> AllocationFields(l.allocations[j], |l.sources|);
    }
  }

  /** An allocation's remainder is part of its source's authorization. */
  lemma RemainderAuthorized(l: Ledger, k: nat)
    requires Accounts(l) && k < |l.allocations|
    ensures l.allocations[k].source < |l.sources|
    ensures l.allocations[k].remaining <= l.sources[l.allocations[k].source].authorized
    ensures AllocationRemaining(l.allocations[k]) == Ok(l.allocations[k].remaining)
  {
    var a := l.allocations[k];
    assert AllocationFields(a, |l.sources|);
    assert SourceSums(l, a.source);
    TallyMember(l.allocations, k, RemainingOf(a.source));
  }

  lemma SpendAccounts(l: Ledger, session: nat, amount: nat, now: int)
    requires Accounts(l) && Spend(l, session, amount, now).Ok?
    ensures Accounts(Spend(l, session, amount, now).value)
  {
    var found := FindAllocation(l.allocations, session);
    if found.Some? {
      var k := found.value;
      var a := l.allocations[k];
      RemainderAuthorized(l, k);
      assert SourceBasics(l.sources[a.source]);
      var m := Spend(l, session, amount, now).value;
      MoveTogether(l, k, m.allocations[k], m.sources[a.source]);
    }
  }

  lemma ReleaseAccounts(l: Ledger, session: nat, now: int)
    requires Accounts(l) && Release(l, session, now).Ok?
    ensures Accounts(Release(l, session, now).value)
  {
    var found := FindAllocation(l.allocations, session);
    if found.Some? && l.allocations[found.value].state == Active {
      var k := found.value;
      var a := l.allocations[k];
      RemainderAuthorized(l, k);
      assert SourceBasics(l.sources[a.source]);
      var m := Release(l, session, now).value;
      MoveTogether(l, k, m.allocations[k], m.sources[a.source]);
    }
  }

  lemma TopUpAccounts(l: Ledger, session: nat, amount: nat, now: int)
    requires Accounts(l) && TopUp(l, session, amount, now).Ok?
    ensures Accounts(TopUp(l, session, amount, now).value)
  {
    var found := FindAllocation(l.allocations, session);
    if found.Some? && l.allocations[found.value].state == Active {
      var k := found.value;
      var a := l.allocations[k];
      RemainderAuthorized(l, k);
      assert SourceBasics(l.sources[a.source]);
      var m := TopUp(l, session, amount, now).value;
      MoveTogether(l, k, m.allocations[k], m.sources[a.source]);
    }
  }

  lemma AllocateAccounts(l: Ledger, i: nat, session: nat, amount: nat, now: int)
    requires Accounts(l) && Allocate(l, i, session, amount, now).Ok?
    ensures Accounts(Allocate(l, i, session, amount, now).value)
  {
    assert SourceBasics(l.sources[i]);
    var m := Allocate(l, i, session, amount, now).value;
    AddAllocation(l, m.allocations[|l.allocations|], m.sources[i]);
  }

  /** Two rows that promise the same and have moved the same. */
  predicate SameMoved(s: Source, t: Source) {
    t.mode == s.mode && t.authorized == s.authorized && t.reserved == s.reserved && t.spent == s.spent && t.released == s.released
  }

  lemma ConnectedRowFields(s: Source, available: nat, observedAt: int, now: int)
    requires SourceBasics(s) && s.mode == Connected && ConnectedRow(s, available, observedAt, now).Ok?
    ensures var row := ConnectedRow(s, available, observedAt, now).value;
            SourceFields(row) && SameMoved(s, row)
  {}

  lemma SecuredRowFields(s: Source, locked: nat, observedAt: int, now: int)
    requires SourceBasics(s) && s.mode == Secured && SecuredRow(s, locked, observedAt, now).Ok?
    ensures var row := SecuredRow(s, locked, observedAt, now).value;
            SourceFields(row) && SameMoved(s, row)
  {}

  lemma ProveMoreAccounts(l: Ledger, i: nat, amount: nat, observedAt: int, now: int)
    requires Accounts(l) && ProveMore(l, i, amount, observedAt, now).Ok?
    ensures Accounts(ProveMore(l, i, amount, observedAt, now).value)
  {
    assert SourceBasics(l.sources[i]);
    ReplaceSource(l, i, ProveMore(l, i, amount, observedAt, now).value.sources[i]);
  }

  lemma ObserveAccounts(l: Ledger, op: Op, now: int)
    requires Accounts(l) && Attempt(l, op, now).Ok?
    requires op.SeeConnected? || op.SeeSecured?
    ensures Accounts(Attempt(l, op, now).value)
  {
    if op.i < |l.sources| {
      var s := l.sources[op.i];
      assert SourceBasics(s);
      match op
      case SeeConnected(i, available, observedAt) =>
        ConnectedRowFields(s, available, observedAt, now);
        ReplaceSource(l, i, ConnectedRow(s, available, observedAt, now).value);
      case SeeSecured(i, locked, observedAt) =>
        if s.mode == Secured {
          SecuredRowFields(s, locked, observedAt, now);
          ReplaceSource(l, i, SecuredRow(s, locked, observedAt, now).value);
        }
    }
  }

  /** Every step keeps the accounts, in a recorded shortfall or not. */
  lemma StepAccounts(l: Ledger, op: Op, now: int)
    requires Accounts(l)
    ensures Accounts(Step(l, op, now))
  {
    if Attempt(l, op, now).Ok? {
      match op
      case AddConnected => AddSource(l, EnsureConnected(l).sources[|l.sources|]);
      case SeeConnected(_, _, _) => ObserveAccounts(l, op, now);
      case AddProof(amount, observedAt) => AddSource(l, ProveNew(l, amount, observedAt).value.sources[|l.sources|]);
      case MoreProof(i, amount, observedAt) => ProveMoreAccounts(l, i, amount, observedAt, now);
      case SeeSecured(_, _, _) => ObserveAccounts(l, op, now);
      case DoAllocate(i, session, amount) => AllocateAccounts(l, i, session, amount, now);
      case DoTopUp(session, amount) => TopUpAccounts(l, session, amount, now);
      case DoSpend(session, amount) => SpendAccounts(l, session, amount, now);
      case DoRelease(session) => ReleaseAccounts(l, session, now);
    }
  }

  // Shortfall safety.

  /** A row that passed the refresh has no shortfall and an exact reclaimable amount, whatever it was before. */
  lemma RefreshedExact(source: Source, now: int)
    requires StoreSource(source, now).Ok?
    ensures SourceExact(StoreSource(source, now).value)
  {}

  lemma ReplacedExact(l: Ledger, m: Ledger, i: nat, stored: Source, now: int)
    requires Exact(l) && i < |l.sources| && StoreSource(stored, now).Ok?
    requires m.sources == l.sources[i := StoreSource(stored, now).value]
    ensures Exact(m)
  {
    RefreshedExact(stored, now);
  }

  lemma SpendExact(l: Ledger, session: nat, amount: nat, now: int)
    requires Exact(l) && Spend(l, session, amount, now).Ok?
    ensures Exact(Spend(l, session, amount, now).value)
  {
    var found := FindAllocation(l.allocations, session);
    if found.Some? {
      var i := l.allocations[found.value].source;
      ReplacedExact(l, Spend(l, session, amount, now).value, i, Draw(l.sources[i], amount).value, now);
    }
  }

  lemma ReleaseExact(l: Ledger, session: nat, now: int)
    requires Exact(l) && Release(l, session, now).Ok?
    ensures Exact(Release(l, session, now).value)
  {
    var found := FindAllocation(l.allocations, session);
    if found.Some? && l.allocations[found.value].state == Active {
      var a := l.allocations[found.value];
      var freed := GiveBack(l.sources[a.source], AllocationRemaining(a).value).value;
      ReplacedExact(l, Release(l, session, now).value, a.source, freed, now);
    }
  }

  lemma TopUpExact(l: Ledger, session: nat, amount: nat, now: int)
    requires Exact(l) && TopUp(l, session, amount, now).Ok?
    ensures Exact(TopUp(l, session, amount, now).value)
  {
    var found := FindAllocation(l.allocations, session);
    if found.Some? && l.allocations[found.value].state == Active {
      var i := l.allocations[found.value].source;
      ReplacedExact(l, TopUp(l, session, amount, now).value, i, Promise(l.sources[i], amount), now);
    }
  }

  lemma AllocateExact(l: Ledger, i: nat, session: nat, amount: nat, now: int)
    requires Exact(l) && Allocate(l, i, session, amount, now).Ok?
    ensures Exact(Allocate(l, i, session, amount, now).value)
  {
    ReplacedExact(l, Allocate(l, i, session, amount, now).value, i, Promise(l.sources[i], amount), now);
  }

  lemma ObservationExact(l: Ledger, op: Op, now: int)
    requires Exact(l) && !op.DoAllocate? && !op.DoTopUp? && !op.DoSpend? && !op.DoRelease?
    ensures Exact(Step(l, op, now))
  {
    var outcome := Attempt(l, op, now);
  }

  /** No step leaves an unrecorded shortfall or a wrong reclaimable amount behind. */
  lemma StepExact(l: Ledger, op: Op, now: int)
    requires Exact(l)
    ensures Exact(Step(l, op, now))
  {
    if Attempt(l, op, now).Ok? {
      match op
      case DoAllocate(i, session, amount) => AllocateExact(l, i, session, amount, now);
      case DoTopUp(session, amount) => TopUpExact(l, session, amount, now);
      case DoSpend(session, amount) => SpendExact(l, session, amount, now);
      case DoRelease(session) => ReleaseExact(l, session, now);
      case _ => ObservationExact(l, op, now);
    }
  }

  lemma StepKeeps(l: Ledger, op: Op, now: int)
    requires Inv(l)
    ensures Inv(Step(l, op, now))
  {
    StepAccounts(l, op, now);
    StepExact(l, op, now);
  }

  lemma SpendKeeps(l: Ledger, session: nat, amount: nat, now: int)
    requires Inv(l) && Spend(l, session, amount, now).Ok?
    ensures Inv(Spend(l, session, amount, now).value)
  {
    SpendAccounts(l, session, amount, now);
    SpendExact(l, session, amount, now);
  }

  lemma ReleaseKeeps(l: Ledger, session: nat, now: int)
    requires Inv(l) && Release(l, session, now).Ok?
    ensures Inv(Release(l, session, now).value)
  {
    ReleaseAccounts(l, session, now);
    ReleaseExact(l, session, now);
  }

  /** Conservation and shortfall safety hold after every run. */
  lemma {:induction false} RunKeeps(l: Ledger, ops: seq<(Op, int)>)
    requires Inv(l)
    ensures Inv(Run(l, ops))
  {
    if ops != [] {
      RunKeeps(l, ops[..|ops| - 1]);
      StepKeeps(Run(l, ops[..|ops| - 1]), ops[|ops| - 1].0, ops[|ops| - 1].1);
    }
  }

  lemma EmptyLedger()
    ensures Inv(EMPTY)
  {}

  // Exactly when money moves: the accounts are enough, whatever a late observation left.

  ghost predicate InShortfall(s: Source) {
    s.mode == Secured && s.locked < s.reserved
  }

  /** A spend commits exactly when its active allocation covers it, its source is not in a shortfall, and the
      spent counter stays a safe integer. */
  lemma SpendCommitsIff(l: Ledger, session: nat, amount: nat, now: int)
    requires Accounts(l) && FindAllocation(l.allocations, session).Some?
    ensures var a := l.allocations[FindAllocation(l.allocations, session).value];
            && a.source < |l.sources|
            && (Spend(l, session, amount, now).Ok? <==>
                  && a.state == Active && amount <= a.remaining
                  && !InShortfall(l.sources[a.source])
                  && l.sources[a.source].spent + amount <= MAX_SAFE)
  {
    var k := FindAllocation(l.allocations, session).value;
    RemainderAuthorized(l, k);
    assert AllocationFields(l.allocations[k], |l.sources|);
    assert SourceBasics(l.sources[l.allocations[k].source]);
  }

  /** What a spend asks of its pass and its source: no allocation at all, or an active one that covers the amount, on
      a source outside a shortfall whose spent counter stays a safe integer. */
  ghost predicate CanSpend(l: Ledger, session: nat, amount: nat) {
    var found := FindAllocation(l.allocations, session);
    found.Some? ==>
      var a := l.allocations[found.value];
      && a.state == Active && amount <= a.remaining
      && a.source < |l.sources| && !InShortfall(l.sources[a.source]) && l.sources[a.source].spent + amount <= MAX_SAFE
  }

  lemma SpendIffCanSpend(l: Ledger, session: nat, amount: nat, now: int)
    requires Accounts(l)
    ensures Spend(l, session, amount, now).Ok? <==> CanSpend(l, session, amount)
  {
    if FindAllocation(l.allocations, session).Some? {
      SpendCommitsIff(l, session, amount, now);
    }
  }

  /** A release of an active allocation commits exactly when it ends outside a shortfall. */
  lemma ReleaseCommitsIff(l: Ledger, session: nat, now: int)
    requires Accounts(l) && FindAllocation(l.allocations, session).Some?
    ensures var a := l.allocations[FindAllocation(l.allocations, session).value];
            && a.source < |l.sources|
            && (Release(l, session, now).Ok? <==>
                  a.state == Active ==>
                    && (l.sources[a.source].mode == Secured ==>
                          l.sources[a.source].reserved <= l.sources[a.source].locked + a.remaining)
                    && l.sources[a.source].released + a.remaining <= MAX_SAFE)
  {
    var k := FindAllocation(l.allocations, session).value;
    RemainderAuthorized(l, k);
    assert AllocationFields(l.allocations[k], |l.sources|);
    assert SourceBasics(l.sources[l.allocations[k].source]);
  }

  lemma SpendGuards(l: Ledger, session: nat, amount: nat, now: int)
    requires Accounts(l)
    ensures Spend(l, session, amount, now) != Err(AuthorizationCannotCover)
    ensures Spend(l, session, amount, now) != Err(SourceMissing)
    ensures Spend(l, session, amount, now) == Err(CountersCannotCover) ==>
              InShortfall(l.sources[l.allocations[FindAllocation(l.allocations, session).value].source])
  {
    var found := FindAllocation(l.allocations, session);
    if found.Some? {
      RemainderAuthorized(l, found.value);
      assert AllocationFields(l.allocations[found.value], |l.sources|);
      assert SourceBasics(l.sources[l.allocations[found.value].source]);
    }
  }

  lemma ReleaseGuards(l: Ledger, session: nat, now: int)
    requires Accounts(l)
    ensures Release(l, session, now) != Err(AuthorizationCannotRelease)
    ensures Release(l, session, now) != Err(ReservationCannotRelease)
    ensures Release(l, session, now) != Err(SourceMissing) && Release(l, session, now) != Err(AllocationShort)
  {
    var found := FindAllocation(l.allocations, session);
    if found.Some? {
      RemainderAuthorized(l, found.value);
      assert AllocationFields(l.allocations[found.value], |l.sources|);
      assert SourceBasics(l.sources[l.allocations[found.value].source]);
    }
  }

  /** The consistency guards of spend and release cannot fire: authorization always covers, the reserved
      counter always covers, and only a shortfall can leave the locked counter short. */
  lemma ConsistencyGuardsUnreachable(l: Ledger, session: nat, amount: nat, now: int)
    requires Accounts(l)
    ensures Spend(l, session, amount, now) != Err(AuthorizationCannotCover)
    ensures Spend(l, session, amount, now) != Err(SourceMissing)
    ensures Spend(l, session, amount, now) == Err(CountersCannotCover) ==>
              InShortfall(l.sources[l.allocations[FindAllocation(l.allocations, session).value].source])
    ensures Release(l, session, now) != Err(AuthorizationCannotRelease)
    ensures Release(l, session, now) != Err(ReservationCannotRelease)
    ensures Release(l, session, now) != Err(SourceMissing) && Release(l, session, now) != Err(AllocationShort)
  {
    SpendGuards(l, session, amount, now);
    ReleaseGuards(l, session, now);
  }

  /** While a source is in a shortfall nothing is allocated, topped up or spent from it, and no pass drawn on it
      is reported ready. */
  lemma ShortfallBlocks(l: Ledger, i: nat, session: nat, amount: nat, now: int)
    requires Accounts(l) && i < |l.sources| && InShortfall(l.sources[i])
    ensures Allocate(l, i, session, amount, now).Err?
    ensures var found := FindAllocation(l.allocations, session);
            found.Some? && l.allocations[found.value].source == i ==>
              && Spend(l, session, amount, now).Err?
              && (TopUp(l, session, amount, now).Err? || TopUp(l, session, amount, now) == Ok(l))
              && ExecutionStatus(l, session, amount, now).NotReady?
  {
    assert SourceBasics(l.sources[i]);
    if FindAllocation(l.allocations, session).Some? {
      SpendCommitsIff(l, session, amount, now);
    }
  }

  /** A pass reported ready for an amount can spend it, as long as the spent counter stays a safe integer. */
  lemma ReadyCanSpend(l: Ledger, session: nat, amount: nat, now: int, later: int)
    requires Accounts(l) && ExecutionStatus(l, session, amount, now) == Ready
    requires forall i :: 0 <= i < |l.sources| ==> l.sources[i].spent + amount <= MAX_SAFE
    ensures Spend(l, session, amount, later).Ok?
  {
    if FindAllocation(l.allocations, session).Some? {
      SpendCommitsIff(l, session, amount, later);
    }
  }
}
