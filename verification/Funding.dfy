/** Funding sources and the pass allocations drawn on them (src/domain/funding.ts, src/services/fundingSource.service.ts).
    Rows are identified by their position; a function returns the ledger a transaction commits, or the error it throws. */
module Funding {
  import opened Wrappers
  import opened Money

  const FRESHNESS_MS: int := 300_000

  datatype Mode = Connected | Secured

  datatype SourceState = Unverified | Available | FullyAllocated | Insufficient | Stale

  datatype AllocationState = Active | Released | Exhausted

  datatype FailureCode = ProofRequired | ProofStale | AggregateInsufficient

  datatype Source = Source(
    mode: Mode,
    state: SourceState,
    available: nat,
    authorized: nat,
    locked: nat,
    reserved: nat,
    spent: nat,
    released: nat,
    reclaimable: nat,
    proof: bool,
    observed: bool,
    staleAt: Option<int>,
    failure: Option<FailureCode>)

  datatype Allocation = Allocation(
    source: nat,
    session: nat,
    state: AllocationState,
    authorized: nat,
    spent: nat,
    released: nat,
    remaining: nat)

  datatype Ledger = Ledger(sources: seq<Source>, allocations: seq<Allocation>)

  datatype FundingError =
    | SourceMissing | WrongMode | NoProof | StaleProof | SecuredInsufficient
    | ReservedExceedsLocked | AllocationInactive | AllocationShort | AllocationExists
    | CountersCannotCover | AuthorizationCannotCover
    | ReservationCannotRelease | AuthorizationCannotRelease
    | UnsafeAmount | LockedWithoutProof

  predicate IsStale(staleAt: Option<int>, now: int) {
    staleAt.Some? && staleAt.value <= now
  }

  /** Fails when a reservation exceeds what the network has locked. */
  function SecuredReclaimable(source: Source): (r: Result<nat, FundingError>) {
    if source.reserved > source.locked then Err(ReservedExceedsLocked) else Ok(source.locked - source.reserved)
  }

  function AllocationRemaining(a: Allocation): (r: Result<nat, FundingError>) {
    if a.spent + a.released > a.authorized then Err(AllocationShort) else Ok(a.authorized - a.spent - a.released)
  }

  function ClassifySource(source: Source, now: int): (state: SourceState) {
    if IsStale(source.staleAt, now) then Stale
    else if source.mode == Secured then
      if !source.proof then Unverified
      else if source.locked <= source.reserved then FullyAllocated else Available
    else if !source.observed then Unverified
    else if source.available > 0 && source.available >= source.authorized then Available else Insufficient
  }

  predicate SafeSource(s: Source) {
    && s.available <= MAX_SAFE && s.authorized <= MAX_SAFE && s.locked <= MAX_SAFE && s.reserved <= MAX_SAFE
    && s.spent <= MAX_SAFE && s.released <= MAX_SAFE && s.reclaimable <= MAX_SAFE
  }

  predicate SafeAllocation(a: Allocation) {
    a.authorized <= MAX_SAFE && a.spent <= MAX_SAFE && a.released <= MAX_SAFE && a.remaining <= MAX_SAFE
  }

  function RefreshSource(source: Source, now: int): (r: Result<Source, FundingError>) {
    var reclaimable :- if source.mode == Secured then SecuredReclaimable(source)
                       else Ok(if source.available > source.authorized then source.available - source.authorized else 0);
    var refreshed := source.(reclaimable := reclaimable, state := ClassifySource(source, now));
    var _ :- Check(SafeSource(refreshed), UnsafeAmount);
    Ok(refreshed)
  }

  function RefreshAllocation(a: Allocation): (r: Result<Allocation, FundingError>) {
    var remaining :- AllocationRemaining(a);
    var _ :- Check(SafeAllocation(a.(remaining := remaining)), UnsafeAmount);
    Ok(a.(remaining := remaining))
  }

  /** The validation every stored source passes: locked funds of a secured source need a network proof. */
  predicate Storable(s: Source) {
    s.mode == Secured && s.locked > 0 ==> s.proof
  }

  function StoreSource(source: Source, now: int): (r: Result<Source, FundingError>) {
    var refreshed :- RefreshSource(source, now);
    var _ :- Check(Storable(refreshed), LockedWithoutProof);
    Ok(refreshed)
  }

  /** The position of the allocation of a session. */
  function FindAllocation(allocations: seq<Allocation>, session: nat): (k: Option<nat>)
    ensures k.Some? ==> k.value < |allocations| && allocations[k.value].session == session
    ensures k.None? ==> forall i :: 0 <= i < |allocations| ==> allocations[i].session != session
  {
    if allocations == [] then None
    else if allocations[|allocations| - 1].session == session then Some(|allocations| - 1)
    else FindAllocation(allocations[..|allocations| - 1], session)
  }

  // Observations.

  function EnsureConnected(l: Ledger): Ledger {
    l.(sources := l.sources + [Source(Connected, Unverified, 0, 0, 0, 0, 0, 0, 0, false, false, None, None)])
  }

  /** What a connected-wallet observation makes of the row it read. */
  function ConnectedRow(source: Source, available: nat, observedAt: int, now: int): (r: Result<Source, FundingError>) {
    StoreSource(source.(
                  available := available,
                  observed := true,
                  staleAt := Some(observedAt + FRESHNESS_MS),
                  failure := None), now)
  }

  function ObserveConnected(l: Ledger, i: nat, available: nat, observedAt: int, now: int): (r: Result<Ledger, FundingError>) {
    var _ :- Check(i < |l.sources|, SourceMissing);
    var _ :- Check(l.sources[i].mode == Connected, WrongMode);
    var stored :- ConnectedRow(l.sources[i], available, observedAt, now);
    Ok(l.(sources := l.sources[i := stored]))
  }

  function ProveNew(l: Ledger, amount: nat, observedAt: int): (r: Result<Ledger, FundingError>) {
    var _ :- Check(amount <= MAX_SAFE, UnsafeAmount);
    Ok(l.(sources := l.sources + [Source(Secured, Available, amount, 0, amount, 0, 0, 0, amount, true, true,
                                         Some(observedAt + FRESHNESS_MS), None)]))
  }

  function ProveMore(l: Ledger, i: nat, amount: nat, observedAt: int, now: int): (r: Result<Ledger, FundingError>) {
    var _ :- Check(i < |l.sources|, SourceMissing);
    var source := l.sources[i];
    var _ :- Check(source.mode == Secured, WrongMode);
    var stored :- StoreSource(source.(
                                locked := source.locked + amount,
                                available := source.locked + amount,
                                proof := true,
                                observed := true,
                                staleAt := Some(observedAt + FRESHNESS_MS),
                                failure := None), now);
    Ok(l.(sources := l.sources[i := stored]))
  }

  /** What a network observation makes of the row it read; below the reservations it records the shortfall. */
  function SecuredRow(source: Source, locked: nat, observedAt: int, now: int): (r: Result<Source, FundingError>) {
    var _ :- Check(locked <= MAX_SAFE, UnsafeAmount);
    var seen := source.(
                locked := locked,
                available := locked,
                observed := true,
                staleAt := Some(observedAt + FRESHNESS_MS));
    if locked < seen.reserved then
      var short := seen.(reclaimable := 0, state := Insufficient, failure := Some(AggregateInsufficient));
      var _ :- Check(Storable(short), LockedWithoutProof);
      Ok(short)
    else
      StoreSource(seen.(failure := None), now)
  }

  function ObserveSecured(l: Ledger, i: nat, locked: nat, observedAt: int, now: int): (r: Result<Ledger, FundingError>) {
    if i >= |l.sources| || l.sources[i].mode != Secured then Ok(l)
    else
      var stored :- SecuredRow(l.sources[i], locked, observedAt, now);
      Ok(l.(sources := l.sources[i := stored]))
  }

  // Movements.

  /** The guards a secured source passes before more of it is promised. */
  function RequireReclaimable(source: Source, amount: nat, now: int): (r: Result<(), FundingError>) {
    if source.mode != Secured then Ok(())
    else
      var _ :- Check(source.proof, NoProof);
      var _ :- Check(!IsStale(source.staleAt, now), StaleProof);
      var reclaimable :- SecuredReclaimable(source);
      var _ :- Check(amount <= reclaimable, SecuredInsufficient);
      Ok(())
  }

  function Promise(source: Source, amount: nat): Source {
    source.(
    reserved := if source.mode == Secured then source.reserved + amount else source.reserved,
    authorized := source.authorized + amount)
  }

  function Allocate(l: Ledger, i: nat, session: nat, amount: nat, now: int): (r: Result<Ledger, FundingError>) {
    var _ :- Check(i < |l.sources|, SourceMissing);
    var source := l.sources[i];
    var _ :- RequireReclaimable(source, amount, now);
    var stored :- StoreSource(Promise(source, amount), now);
    var _ :- Check(FindAllocation(l.allocations, session).None?, AllocationExists);
    Ok(Ledger(l.sources[i := stored], l.allocations + [Allocation(i, session, Active, amount, 0, 0, amount)]))
  }

  function TopUp(l: Ledger, session: nat, amount: nat, now: int): (r: Result<Ledger, FundingError>) {
    var found := FindAllocation(l.allocations, session);
    if found.None? || l.allocations[found.value].state != Active then Ok(l)
    else
      var a := l.allocations[found.value];
      var _ :- Check(a.source < |l.sources|, SourceMissing);
      var source := l.sources[a.source];
      var _ :- RequireReclaimable(source, amount, now);
      var allocation :- RefreshAllocation(a.(authorized := a.authorized + amount));
      var stored :- StoreSource(Promise(source, amount), now);
      Ok(Ledger(l.sources[a.source := stored], l.allocations[found.value := allocation]))
  }

  /** The source after a spend is drawn from it. */
  function Draw(source: Source, amount: nat): (r: Result<Source, FundingError>) {
    var _ :- Check(source.mode == Secured ==> amount <= source.reserved && amount <= source.locked, CountersCannotCover);
    var _ :- Check(amount <= source.authorized, AuthorizationCannotCover);
    var drawn := if source.mode == Secured
                 then source.(
                      reserved := source.reserved - amount,
                      locked := source.locked - amount,
                      available := source.locked - amount)
                 else source;
    Ok(drawn.(authorized := source.authorized - amount, spent := source.spent + amount))
  }

  function Spend(l: Ledger, session: nat, amount: nat, now: int): (r: Result<Ledger, FundingError>) {
    var found := FindAllocation(l.allocations, session);
    if found.None? then Ok(l)
    else
      var a := l.allocations[found.value];
      var _ :- Check(a.state == Active, AllocationInactive);
      var remaining :- AllocationRemaining(a);
      var _ :- Check(amount <= remaining, AllocationShort);
      var _ :- Check(a.source < |l.sources|, SourceMissing);
      var drawn :- Draw(l.sources[a.source], amount);
      var allocation :- RefreshAllocation(a.(spent := a.spent + amount));
      var stored :- StoreSource(drawn, now);
      Ok(Ledger(
         l.sources[a.source := stored],
         l.allocations[found.value := if allocation.remaining == 0 then allocation.(state := Exhausted) else allocation]))
  }

  /** The source after what an allocation has left is given back to it. */
  function GiveBack(source: Source, remaining: nat): (r: Result<Source, FundingError>) {
    var _ :- Check(source.mode == Secured ==> remaining <= source.reserved, ReservationCannotRelease);
    var _ :- Check(remaining <= source.authorized, AuthorizationCannotRelease);
    Ok(source.(
       reserved := if source.mode == Secured then source.reserved - remaining else source.reserved,
       authorized := source.authorized - remaining,
       released := source.released + remaining))
  }

  function Release(l: Ledger, session: nat, now: int): (r: Result<Ledger, FundingError>) {
    var found := FindAllocation(l.allocations, session);
    if found.None? || l.allocations[found.value].state != Active then Ok(l)
    else
      var a := l.allocations[found.value];
      var remaining :- AllocationRemaining(a);
      var _ :- Check(a.source < |l.sources|, SourceMissing);
      var freed :- GiveBack(l.sources[a.source], remaining);
      var allocation :- RefreshAllocation(a.(released := a.released + remaining, state := Released));
      var stored :- StoreSource(freed, now);
      Ok(Ledger(l.sources[a.source := stored], l.allocations[found.value := allocation]))
  }

  // Readiness.

  datatype Readiness = Ready | NotReady(reason: Reason)

  datatype Reason = AllocationInsufficient | NoSource | SourceFailed(code: FailureCode) | ProofMissing | ProofOutdated
                  | SecuredShort | BalanceUnverified | BalanceStale | LiquidityShort

  function ExecutionStatus(l: Ledger, session: nat, amount: nat, now: int): (r: Readiness) {
    var found := FindAllocation(l.allocations, session);
    if found.None? then Ready
    else
      var a := l.allocations[found.value];
      if a.state != Active || a.remaining < amount then NotReady(AllocationInsufficient)
      else if a.source >= |l.sources| then NotReady(NoSource)
      else
        var s := l.sources[a.source];
        if s.failure.Some? then NotReady(SourceFailed(s.failure.value))
        else if s.mode == Secured then
          if !s.proof then NotReady(ProofMissing)
          else if IsStale(s.staleAt, now) then NotReady(ProofOutdated)
          else if s.locked < s.reserved || s.locked < amount || s.reserved < amount then NotReady(SecuredShort)
          else Ready
        else if !s.observed then NotReady(BalanceUnverified)
        else if IsStale(s.staleAt, now) then NotReady(BalanceStale)
        else if s.available < amount then NotReady(LiquidityShort)
        else Ready
  }

  // Runs.

  datatype Op =
    | AddConnected
    | SeeConnected(i: nat, available: nat, observedAt: int)
    | AddProof(amount: nat, observedAt: int)
    | MoreProof(i: nat, amount: nat, observedAt: int)
    | SeeSecured(i: nat, locked: nat, observedAt: int)
    | DoAllocate(i: nat, session: nat, amount: nat)
    | DoTopUp(session: nat, amount: nat)
    | DoSpend(session: nat, amount: nat)
    | DoRelease(session: nat)

  function Attempt(l: Ledger, op: Op, now: int): (r: Result<Ledger, FundingError>) {
    match op
    case AddConnected => Ok(EnsureConnected(l))
    case SeeConnected(i, available, observedAt) => ObserveConnected(l, i, available, observedAt, now)
    case AddProof(amount, observedAt) => ProveNew(l, amount, observedAt)
    case MoreProof(i, amount, observedAt) => ProveMore(l, i, amount, observedAt, now)
    case SeeSecured(i, locked, observedAt) => ObserveSecured(l, i, locked, observedAt, now)
    case DoAllocate(i, session, amount) => Allocate(l, i, session, amount, now)
    case DoTopUp(session, amount) => TopUp(l, session, amount, now)
    case DoSpend(session, amount) => Spend(l, session, amount, now)
    case DoRelease(session) => Release(l, session, now)
  }

  /** One transaction: a throw changes nothing. */
  function Step(l: Ledger, op: Op, now: int): Ledger {
    if Attempt(l, op, now).Ok? then Attempt(l, op, now).value else l
  }

  const EMPTY: Ledger := Ledger([], [])

  function Run(l: Ledger, ops: seq<(Op, int)>): Ledger {
    if ops == [] then l else Step(Run(l, ops[..|ops| - 1]), ops[|ops| - 1].0, ops[|ops| - 1].1)
  }
}
