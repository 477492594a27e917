/** What every funding operation answers and leaves, on the stored rows: exactly when it commits, the error of each
    condition that fails, and what moves (src/services/fundingSource.service.ts). The accounts are enough, so a late
    balance observation changes none of it. */
module FundingAnswers {
  import opened Wrappers
  import opened Money
  import opened Tallies
  import opened Funding
  import opened FundingInvariant

  /** Why a source refuses to have more of it promised. */
  function PromiseRefusal(s: Source, amount: nat, now: int): Option<FundingError> {
    if s.mode == Connected then None
    else if !s.proof then Some(NoProof)
    else if s.staleAt.Some? && now >= s.staleAt.value then Some(StaleProof)
    else if s.locked < s.reserved then Some(ReservedExceedsLocked)
    else if s.locked - s.reserved < amount then Some(SecuredInsufficient)
    else None
  }

  /** A row that was refreshed at `now`: what its state says. */
  predicate Refreshed(s: Source, now: int) {
    && (s.state == Stale <==> s.staleAt.Some? && now >= s.staleAt.value)
    && (s.state == Unverified ==> if s.mode == Secured then !s.proof else !s.observed)
    && (s.state == FullyAllocated ==> s.mode == Secured && s.proof && s.locked <= s.reserved)
    && (s.state == Insufficient ==> s.mode == Connected && s.observed && (s.available == 0 || s.available < s.authorized))
    && (s.state == Available ==>
          if s.mode == Secured then s.proof && s.locked > s.reserved
          else s.observed && s.available > 0 && s.available >= s.authorized)
    && s.reclaimable == (if s.mode == Secured then Above(s.locked, s.reserved) else Above(s.available, s.authorized))
  }

  /** Only the promised amounts differ, and what is computed from them. */
  predicate OnlyPromised(s: Source, t: Source) {
    t == s.(authorized := t.authorized, reserved := t.reserved, reclaimable := t.reclaimable, state := t.state)
  }

  lemma PromiseAnswers(s: Source, amount: nat, now: int)
    ensures RequireReclaimable(s, amount, now)
            == match PromiseRefusal(s, amount, now) case None => Ok(()) case Some(e) => Err(e)
  {}

  lemma PromiseStores(s: Source, amount: nat, now: int)
    requires SourceBasics(s) && PromiseRefusal(s, amount, now).None?
    ensures StoreSource(Promise(s, amount), now)
            == if s.authorized + amount <= MAX_SAFE then Ok(StoreSource(Promise(s, amount), now).value) else Err(UnsafeAmount)
    ensures s.authorized + amount <= MAX_SAFE ==>
              var t := StoreSource(Promise(s, amount), now).value;
              && OnlyPromised(s, t) && t.authorized == s.authorized + amount && Refreshed(t, now)
              && t.reserved == (if s.mode == Secured then s.reserved + amount else 0)
  {}

  /** An allocation commits exactly when its source exists, a secured one is proved, freshly observed and has the amount
      free, the counter stays a safe integer, and the pass has no allocation yet. */
  lemma AllocateCommitsIff(l: Ledger, i: nat, session: nat, amount: nat, now: int)
    requires Accounts(l)
    ensures Allocate(l, i, session, amount, now).Ok? <==>
            && i < |l.sources| && l.sources[i].authorized + amount <= MAX_SAFE
            && (l.sources[i].mode == Secured ==>
                  && l.sources[i].proof && (l.sources[i].staleAt.Some? ==> now < l.sources[i].staleAt.value)
                  && l.sources[i].reserved + amount <= l.sources[i].locked)
            && forall k :: 0 <= k < |l.allocations| ==> l.allocations[k].session != session
    ensures Allocate(l, i, session, amount, now).Err? ==>
              Allocate(l, i, session, amount, now).error
              == if i >= |l.sources| then SourceMissing
                 else if PromiseRefusal(l.sources[i], amount, now).Some? then PromiseRefusal(l.sources[i], amount, now).value
                 else if l.sources[i].authorized + amount > MAX_SAFE then UnsafeAmount
                 else AllocationExists
  {
    if i < |l.sources| {
      PromiseAnswers(l.sources[i], amount, now);
      if PromiseRefusal(l.sources[i], amount, now).None? {
        PromiseStores(l.sources[i], amount, now);
      }
    }
  }

  /** What a committed allocation leaves: the pass's new allocation, and its amount promised by its source alone. */
  lemma AllocateMoves(l: Ledger, i: nat, session: nat, amount: nat, now: int)
    requires Accounts(l) && Allocate(l, i, session, amount, now).Ok?
    ensures var m := Allocate(l, i, session, amount, now).value;
            && m.allocations == l.allocations + [Allocation(i, session, Active, amount, 0, 0, amount)]
            && i < |l.sources| == |m.sources| && (forall j :: 0 <= j < |l.sources| && j != i ==> m.sources[j] == l.sources[j])
            && var s, t := l.sources[i], m.sources[i];
               && OnlyPromised(s, t) && t.authorized == s.authorized + amount && Refreshed(t, now)
               && t.reserved == (if s.mode == Secured then s.reserved + amount else 0)
  {
    PromiseAnswers(l.sources[i], amount, now);
    PromiseStores(l.sources[i], amount, now);
  }

  ghost predicate HasActive(l: Ledger, session: nat, k: nat) {
    k < |l.allocations| && l.allocations[k].session == session && l.allocations[k].state == Active
  }

  lemma TheAllocation(l: Ledger, session: nat, k: nat)
    requires OnePerSession(l.allocations) && k < |l.allocations| && l.allocations[k].session == session
    ensures FindAllocation(l.allocations, session) == Some(k)
  {}

  /** Without an active allocation a top-up does nothing. */
  lemma TopUpWithout(l: Ledger, session: nat, amount: nat, now: int)
    requires forall k :: 0 <= k < |l.allocations| ==> !HasActive(l, session, k)
    ensures TopUp(l, session, amount, now) == Ok(l)
  {
    var found := FindAllocation(l.allocations, session);
    assert found.Some? ==> !HasActive(l, session, found.value);
  }

  /** A top-up of an active allocation commits exactly when its source could promise the amount and the counters of both
      stay safe integers. */
  lemma TopUpCommitsIff(l: Ledger, session: nat, amount: nat, now: int, k: nat)
    requires Accounts(l) && HasActive(l, session, k)
    ensures l.allocations[k].source < |l.sources|
    ensures var a, s := l.allocations[k], l.sources[l.allocations[k].source];
            var r := TopUp(l, session, amount, now);
            && (r.Ok? <==>
                  && (s.mode == Secured ==>
                        && s.proof && (s.staleAt.Some? ==> now < s.staleAt.value) && s.reserved + amount <= s.locked)
                  && a.authorized + amount <= MAX_SAFE && s.authorized + amount <= MAX_SAFE)
            && (r.Err? ==>
                  r.error == if PromiseRefusal(s, amount, now).Some? then PromiseRefusal(s, amount, now).value else UnsafeAmount)
  {
    TheAllocation(l, session, k);
    var a := l.allocations[k];
    assert AllocationFields(a, |l.sources|);
    PromiseAnswers(l.sources[a.source], amount, now);
    if PromiseRefusal(l.sources[a.source], amount, now).None? {
      PromiseStores(l.sources[a.source], amount, now);
    }
  }

  /** Every row but the allocation at `k` and its source is as it was. */
  predicate OnlyRows(l: Ledger, m: Ledger, k: nat) {
    && k < |l.allocations| == |m.allocations| && l.allocations[k].source < |l.sources| == |m.sources|
    && (forall j :: 0 <= j < |l.allocations| && j != k ==> m.allocations[j] == l.allocations[j])
    && (forall j :: 0 <= j < |l.sources| && j != l.allocations[k].source ==> m.sources[j] == l.sources[j])
  }

  lemma TopUpMoves(l: Ledger, session: nat, amount: nat, now: int, k: nat)
    requires Accounts(l) && HasActive(l, session, k) && TopUp(l, session, amount, now).Ok?
    ensures var m := TopUp(l, session, amount, now).value;
            && OnlyRows(l, m, k)
            && var a, s := l.allocations[k], l.sources[l.allocations[k].source];
               var t := m.sources[a.source];
               && m.allocations[k] == a.(authorized := a.authorized + amount, remaining := a.remaining + amount)
               && OnlyPromised(s, t) && t.authorized == s.authorized + amount && Refreshed(t, now)
               && t.reserved == (if s.mode == Secured then s.reserved + amount else 0)
  {
    TheAllocation(l, session, k);
    var a := l.allocations[k];
    assert AllocationFields(a, |l.sources|);
    PromiseAnswers(l.sources[a.source], amount, now);
    PromiseStores(l.sources[a.source], amount, now);
  }

  /** The error of a spend that does not commit. */
  lemma SpendRefusals(l: Ledger, session: nat, amount: nat, now: int, k: nat)
    requires Accounts(l) && k < |l.allocations| && l.allocations[k].session == session
    ensures l.allocations[k].source < |l.sources|
    ensures var a, s := l.allocations[k], l.sources[l.allocations[k].source];
            Spend(l, session, amount, now).Err? ==>
              Spend(l, session, amount, now).error
              == if a.state != Active then AllocationInactive
                 else if amount > a.remaining then AllocationShort
                 else if s.mode == Secured && s.locked < amount then CountersCannotCover
                 else if s.mode == Secured && s.locked < s.reserved then ReservedExceedsLocked
                 else UnsafeAmount
  {
    TheAllocation(l, session, k);
    RemainderAuthorized(l, k);
    assert AllocationFields(l.allocations[k], |l.sources|);
    assert SourceBasics(l.sources[l.allocations[k].source]);
  }

  /** The source of a spend before and after: the amount leaves what is promised, and the locked funds of a secured one. */
  predicate Drawn(s: Source, t: Source, amount: nat, now: int) {
    && amount <= s.authorized
    && t.authorized == s.authorized - amount && t.spent == s.spent + amount && Refreshed(t, now)
    && (if s.mode == Secured then t.reserved == s.reserved - amount && t.available == t.locked == s.locked - amount
        else t.reserved == t.locked == 0 && t.available == s.available)
    && t == s.(authorized := t.authorized, spent := t.spent, reserved := t.reserved, locked := t.locked,
               available := t.available, reclaimable := t.reclaimable, state := t.state)
  }

  lemma DrawStores(s: Source, amount: nat, now: int)
    requires SourceBasics(s) && Draw(s, amount).Ok? && StoreSource(Draw(s, amount).value, now).Ok?
    ensures Drawn(s, StoreSource(Draw(s, amount).value, now).value, amount, now)
  {}

  /** A committed spend takes the amount from the allocation, exhausted when nothing is left, and from its source. */
  lemma SpendMoves(l: Ledger, session: nat, amount: nat, now: int, k: nat)
    requires Accounts(l) && k < |l.allocations| && l.allocations[k].session == session && Spend(l, session, amount, now).Ok?
    ensures var m := Spend(l, session, amount, now).value;
            && OnlyRows(l, m, k)
            && var a := l.allocations[k];
               && a.state == Active && amount <= a.remaining
               && m.allocations[k] == a.(spent := a.spent + amount, remaining := a.remaining - amount,
                                         state := if amount == a.remaining then Exhausted else Active)
               && Drawn(l.sources[a.source], m.sources[a.source], amount, now)
  {
    TheAllocation(l, session, k);
    RemainderAuthorized(l, k);
    assert AllocationFields(l.allocations[k], |l.sources|);
    DrawStores(l.sources[l.allocations[k].source], amount, now);
  }

  /** A release of anything but an active allocation does nothing. */
  lemma ReleaseWithout(l: Ledger, session: nat, now: int)
    requires forall k :: 0 <= k < |l.allocations| ==> !HasActive(l, session, k)
    ensures Release(l, session, now) == Ok(l)
  {
    var found := FindAllocation(l.allocations, session);
    assert found.Some? ==> !HasActive(l, session, found.value);
  }

  lemma ReleaseRefusals(l: Ledger, session: nat, now: int, k: nat)
    requires Accounts(l) && HasActive(l, session, k)
    ensures l.allocations[k].source < |l.sources|
    ensures var a, s := l.allocations[k], l.sources[l.allocations[k].source];
            Release(l, session, now).Err? ==>
              Release(l, session, now).error
              == if s.mode == Secured && s.locked + a.remaining < s.reserved then ReservedExceedsLocked else UnsafeAmount
  {
    TheAllocation(l, session, k);
    RemainderAuthorized(l, k);
    assert AllocationFields(l.allocations[k], |l.sources|);
    assert SourceBasics(l.sources[l.allocations[k].source]);
  }

  predicate Returned(s: Source, t: Source, amount: nat, now: int) {
    && amount <= s.authorized
    && t.authorized == s.authorized - amount && t.released == s.released + amount && Refreshed(t, now)
    && t.reserved == (if s.mode == Secured then s.reserved - amount else 0)
    && t == s.(authorized := t.authorized, released := t.released, reserved := t.reserved, reclaimable := t.reclaimable,
               state := t.state)
  }

  lemma GiveBackStores(s: Source, amount: nat, now: int)
    requires SourceBasics(s) && GiveBack(s, amount).Ok? && StoreSource(GiveBack(s, amount).value, now).Ok?
    ensures Returned(s, StoreSource(GiveBack(s, amount).value, now).value, amount, now)
  {}

  /** A committed release gives all that remains back: nothing stays promised, and nothing leaves the locked funds. */
  lemma ReleaseMoves(l: Ledger, session: nat, now: int, k: nat)
    requires Accounts(l) && HasActive(l, session, k) && Release(l, session, now).Ok?
    ensures var m := Release(l, session, now).value;
            && OnlyRows(l, m, k)
            && var a := l.allocations[k];
               && m.allocations[k] == a.(state := Released, released := a.released + a.remaining, remaining := 0)
               && Returned(l.sources[a.source], m.sources[a.source], a.remaining, now)
  {
    TheAllocation(l, session, k);
    RemainderAuthorized(l, k);
    assert AllocationFields(l.allocations[k], |l.sources|);
    GiveBackStores(l.sources[l.allocations[k].source], l.allocations[k].remaining, now);
  }

  // Observations.

  /** A network observation writes what was seen, for five minutes; below the reservations it records the shortfall, and
      otherwise clears any failure. */
  lemma SecuredObserved(s: Source, locked: nat, observedAt: int, now: int)
    requires SourceBasics(s) && s.mode == Secured
    ensures var r := SecuredRow(s, locked, observedAt, now);
            && (r.Ok? <==> locked <= MAX_SAFE && (locked > 0 ==> s.proof))
            && (r.Err? ==> r.error == if locked > MAX_SAFE then UnsafeAmount else LockedWithoutProof)
            && (r.Ok? ==>
                  var t := r.value;
                  && t.locked == t.available == locked && t.observed && t.staleAt == Some(observedAt + 300_000)
                  && t == s.(locked := locked, available := locked, observed := true, staleAt := t.staleAt,
                             reclaimable := t.reclaimable, state := t.state, failure := t.failure)
                  && (if locked < s.reserved
                      then t.reclaimable == 0 && t.state == Insufficient && t.failure == Some(AggregateInsufficient)
                      else t.failure == None && Refreshed(t, now)))
  {}

  lemma ConnectedObserved(s: Source, available: nat, observedAt: int, now: int)
    requires SourceBasics(s) && s.mode == Connected
    ensures var r := ConnectedRow(s, available, observedAt, now);
            && (r.Ok? <==> available <= MAX_SAFE) && (r.Err? ==> r.error == UnsafeAmount)
            && (r.Ok? ==>
                  var t := r.value;
                  && t.available == available && t.observed && t.staleAt == Some(observedAt + 300_000) && t.failure == None
                  && t == s.(available := available, observed := true, staleAt := t.staleAt,
                             reclaimable := t.reclaimable, state := t.state, failure := None)
                  && Refreshed(t, now))
  {}

  /** An observation writes the row of its own source and mode, and nothing else. */
  lemma ObservationsStay(l: Ledger, i: nat, amount: nat, observedAt: int, now: int)
    requires Accounts(l)
    ensures ObserveSecured(l, i, amount, observedAt, now)
            == if i >= |l.sources| || l.sources[i].mode != Secured then Ok(l)
               else match SecuredRow(l.sources[i], amount, observedAt, now)
                 case Ok(t) => Ok(l.(sources := l.sources[i := t]))
                 case Err(e) => Err(e)
    ensures ObserveConnected(l, i, amount, observedAt, now)
            == if i >= |l.sources| then Err(SourceMissing) else if l.sources[i].mode != Connected then Err(WrongMode)
               else match ConnectedRow(l.sources[i], amount, observedAt, now)
                 case Ok(t) => Ok(l.(sources := l.sources[i := t]))
                 case Err(e) => Err(e)
  {}

  /** A proof opens a secured source with everything free, or adds to one; its counters of past movements stay. */
  lemma ProofAdds(l: Ledger, i: nat, amount: nat, observedAt: int, now: int)
    requires Accounts(l)
    ensures ProveNew(l, amount, observedAt)
            == if amount > MAX_SAFE then Err(UnsafeAmount)
               else Ok(l.(sources := l.sources + [Source(Secured, Available, amount, 0, amount, 0, 0, 0, amount, true, true,
                                                         Some(observedAt + 300_000), None)]))
    ensures var r := ProveMore(l, i, amount, observedAt, now);
            && (i >= |l.sources| ==> r == Err(SourceMissing))
            && (i < |l.sources| && l.sources[i].mode == Connected ==> r == Err(WrongMode))
            && (i < |l.sources| && l.sources[i].mode == Secured ==>
                  var s := l.sources[i];
                  && (r.Ok? <==> s.reserved <= s.locked + amount <= MAX_SAFE)
                  && (r.Err? ==> r.error == if s.reserved > s.locked + amount then ReservedExceedsLocked else UnsafeAmount)
                  && (r.Ok? ==>
                        && |r.value.sources| == |l.sources|
                        && var t := r.value.sources[i];
                           && r.value == l.(sources := l.sources[i := t])
                           && t == s.(locked := s.locked + amount, available := s.locked + amount, proof := true,
                                      observed := true, staleAt := Some(observedAt + 300_000), failure := None,
                                      reclaimable := t.reclaimable, state := t.state)
                           && Refreshed(t, now)))
  {}

  lemma ConnectedStartsEmpty(l: Ledger)
    ensures EnsureConnected(l)
            == l.(sources := l.sources + [Source(Connected, Unverified, 0, 0, 0, 0, 0, 0, 0, false, false, None, None)])
  {}

  /** A pass is reported ready exactly when its active allocation covers the amount on a source without a failure that
      holds it: proved and fresh with the amount locked and reserved, or observed and fresh with it available. */
  lemma ReadyIff(l: Ledger, session: nat, amount: nat, now: int, k: nat)
    requires Accounts(l) && k < |l.allocations| && l.allocations[k].session == session
    ensures l.allocations[k].source < |l.sources|
    ensures var a, s := l.allocations[k], l.sources[l.allocations[k].source];
            var current := s.staleAt.Some? ==> now < s.staleAt.value;
            && (ExecutionStatus(l, session, amount, now) == Ready <==>
                  && a.state == Active && amount <= a.remaining && s.failure == None && current
                  && (if s.mode == Secured then s.proof && amount <= s.reserved <= s.locked
                      else s.observed && amount <= s.available))
            && (ExecutionStatus(l, session, amount, now) != Ready ==>
                  ExecutionStatus(l, session, amount, now)
                  == NotReady(if a.state != Active || amount > a.remaining then AllocationInsufficient
                              else if s.failure.Some? then SourceFailed(s.failure.value)
                              else if s.mode == Secured then
                                if !s.proof then ProofMissing else if !current then ProofOutdated else SecuredShort
                              else if !s.observed then BalanceUnverified
                              else if !current then BalanceStale else LiquidityShort))
  {
    TheAllocation(l, session, k);
    assert AllocationFields(l.allocations[k], |l.sources|);
  }

  /** A pass without an allocation is ready. */
  lemma ReadyWithout(l: Ledger, session: nat, amount: nat, now: int)
    requires forall k :: 0 <= k < |l.allocations| ==> l.allocations[k].session != session
    ensures ExecutionStatus(l, session, amount, now) == Ready
    ensures Spend(l, session, amount, now) == Ok(l)
  {
    var found := FindAllocation(l.allocations, session);
  }

  /** A step is one transaction: what commits is kept, and what throws leaves everything as it was. */
  lemma StepIs(l: Ledger, op: Op, now: int)
    ensures var r := match op
                     case AddConnected => Ok(EnsureConnected(l))
                     case SeeConnected(i, available, observedAt) => ObserveConnected(l, i, available, observedAt, now)
                     case AddProof(amount, observedAt) => ProveNew(l, amount, observedAt)
                     case MoreProof(i, amount, observedAt) => ProveMore(l, i, amount, observedAt, now)
                     case SeeSecured(i, locked, observedAt) => ObserveSecured(l, i, locked, observedAt, now)
                     case DoAllocate(i, session, amount) => Allocate(l, i, session, amount, now)
                     case DoTopUp(session, amount) => TopUp(l, session, amount, now)
                     case DoSpend(session, amount) => Spend(l, session, amount, now)
                     case DoRelease(session) => Release(l, session, now);
            Step(l, op, now) == match r case Ok(m) => m case Err(_) => l
  {}
}
