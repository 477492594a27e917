/** The stored funding collections, updated field by field; a throw leaves them as they were. */
module FundingStores {
  import opened Wrappers
  import opened Money
  import opened Funding
  import opened FundingInvariant
  import opened FundingRaces

  /** What a transaction leaves: the committed ledger, or the old one after a throw. */
  function Committed(before: Ledger, outcome: Result<Ledger, FundingError>): Ledger {
    if outcome.Ok? then outcome.value else before
  }

  lemma WhatRemains(l: Ledger, k: nat)
    requires Inv(l) && k < |l.allocations|
    ensures AllocationRemaining(l.allocations[k]) == Ok(l.allocations[k].remaining)
    ensures l.allocations[k].state != Active ==> l.allocations[k].remaining == 0
  {
    RemainderAuthorized(l, k);
    assert AllocationFields(l.allocations[k], |l.sources|);
  }

  class FundingStore {
    var sources: seq<Source>
    var allocations: seq<Allocation>

    function Contents(): Ledger
      reads this
    {
      Ledger(sources, allocations)
    }

    constructor ()
      ensures Contents() == Ledger([], []) && Inv(Contents())
    {
      sources, allocations := [], [];
    }

    /** The position of the allocation of a session, or -1. */
    method Locate(session: nat) returns (k: int)
      ensures -1 <= k < |allocations|
      ensures FindAllocation(allocations, session) == if k < 0 then None else Some(k)
    {
      k := |allocations| - 1;
      assert allocations[..k + 1] == allocations;
      while k >= 0 && allocations[k].session != session
        invariant -1 <= k < |allocations|
        invariant FindAllocation(allocations, session) == FindAllocation(allocations[..k + 1], session)
      {
        assert allocations[..k + 1][..k] == allocations[..k];
        k := k - 1;
      }
    }

    method DrawFrom(from: Source, amount: nat) returns (r: Result<Source, FundingError>)
      ensures r == Draw(from, amount)
    {
      var source := from;
      if source.mode == Secured {
        if source.reserved < amount || source.locked < amount {
          return Err(CountersCannotCover);
        }
        source := source.(reserved := source.reserved - amount);
        source := source.(locked := source.locked - amount);
        source := source.(available := source.locked);
      }
      if source.authorized < amount {
        return Err(AuthorizationCannotCover);
      }
      source := source.(authorized := source.authorized - amount);
      source := source.(spent := source.spent + amount);
      return Ok(source);
    }

    method ReturnTo(to: Source, remaining: nat) returns (r: Result<Source, FundingError>)
      ensures r == GiveBack(to, remaining)
    {
      var source := to;
      if source.mode == Secured {
        if source.reserved < remaining {
          return Err(ReservationCannotRelease);
        }
        source := source.(reserved := source.reserved - remaining);
      }
      if source.authorized < remaining {
        return Err(AuthorizationCannotRelease);
      }
      source := source.(authorized := source.authorized - remaining);
      source := source.(released := source.released + remaining);
      return Ok(source);
    }

    method SpendFundingAllocation(session: nat, amount: nat, now: int) returns (r: Result<bool, FundingError>)
      modifies this
      ensures Contents() == Committed(old(Contents()), Spend(old(Contents()), session, amount, now))
      ensures r == match Spend(old(Contents()), session, amount, now)
                   case Ok(_) => Ok(FindAllocation(old(allocations), session).Some?)
                   case Err(e) => Err(e)
    {
      var k := Locate(session);
      if k < 0 {
        return Ok(false);
      }
      var allocation := allocations[k];
      if allocation.state != Active {
        return Err(AllocationInactive);
      }
      var remaining :- AllocationRemaining(allocation);
      if remaining < amount {
        return Err(AllocationShort);
      }
      if allocation.source >= |sources| {
        return Err(SourceMissing);
      }
      var source :- DrawFrom(sources[allocation.source], amount);
      allocation := allocation.(spent := allocation.spent + amount);
      allocation :- RefreshAllocation(allocation);
      if allocation.remaining == 0 {
        allocation := allocation.(state := Exhausted);
      }
      source :- StoreSource(source, now);
      sources := sources[allocation.source := source];
      allocations := allocations[k := allocation];
      return Ok(true);
    }

    method ReleaseFundingAllocation(session: nat, now: int) returns (r: Result<nat, FundingError>)
      modifies this
      ensures Contents() == Committed(old(Contents()), Release(old(Contents()), session, now))
      ensures r.Ok? <==> Release(old(Contents()), session, now).Ok?
      ensures r.Err? ==> Release(old(Contents()), session, now) == Err(r.error)
      ensures Inv(old(Contents())) && r.Ok? && FindAllocation(old(allocations), session).Some? ==>
                r.value == old(allocations)[FindAllocation(old(allocations), session).value].remaining
    {
      var k := Locate(session);
      if k >= 0 && Inv(Contents()) {
        WhatRemains(Contents(), k);
      }
      if k < 0 || allocations[k].state == Released || allocations[k].state == Exhausted {
        return Ok(0);
      }
      var allocation := allocations[k];
      var remaining :- AllocationRemaining(allocation);
      if allocation.source >= |sources| {
        return Err(SourceMissing);
      }
      var source :- ReturnTo(sources[allocation.source], remaining);
      allocation := allocation.(released := allocation.released + remaining);
      allocation := allocation.(state := Released);
      allocation :- RefreshAllocation(allocation);
      source :- StoreSource(source, now);
      sources := sources[allocation.source := source];
      allocations := allocations[k := allocation];
      return Ok(remaining);
    }

    method TopUpFundingAllocation(session: nat, amount: nat, now: int) returns (r: Result<(), FundingError>)
      modifies this
      ensures Contents() == Committed(old(Contents()), TopUp(old(Contents()), session, amount, now))
      ensures r.Ok? <==> TopUp(old(Contents()), session, amount, now).Ok?
    {
      var k := Locate(session);
      if k < 0 || allocations[k].state != Active {
        return Ok(());
      }
      var allocation := allocations[k];
      if allocation.source >= |sources| {
        return Err(SourceMissing);
      }
      var source := sources[allocation.source];
      if source.mode == Secured {
        var _ :- RequireReclaimable(source, amount, now);
        source := source.(reserved := source.reserved + amount);
      }
      source := source.(authorized := source.authorized + amount);
      allocation := allocation.(authorized := allocation.authorized + amount);
      allocation :- RefreshAllocation(allocation);
      source :- StoreSource(source, now);
      sources := sources[allocation.source := source];
      allocations := allocations[k := allocation];
      return Ok(());
    }

    method AllocateFunding(i: nat, session: nat, amount: nat, now: int) returns (r: Result<(), FundingError>)
      modifies this
      ensures Contents() == Committed(old(Contents()), Allocate(old(Contents()), i, session, amount, now))
      ensures r.Ok? <==> Allocate(old(Contents()), i, session, amount, now).Ok?
    {
      if i >= |sources| {
        return Err(SourceMissing);
      }
      var source := sources[i];
      if source.mode == Secured {
        var _ :- RequireReclaimable(source, amount, now);
        source := source.(reserved := source.reserved + amount);
      }
      source := source.(authorized := source.authorized + amount);
      source :- StoreSource(source, now);
      var k := Locate(session);
      if k >= 0 {
        return Err(AllocationExists);
      }
      sources := sources[i := source];
      allocations := allocations + [Allocation(i, session, Active, amount, 0, 0, amount)];
      return Ok(());
    }

    /** Reads the source, and saves it after what other operations did `meanwhile`; a save writes the changed fields. */
    method RecordSecuredFundingBalance(i: nat, locked: nat, observedAt: int, now: int, meanwhile: seq<(Op, int)>)
      returns (r: Result<(), FundingError>)
      modifies this
      ensures r.Ok? <==> ObserveSecured(old(Contents()), i, locked, observedAt, now).Ok?
      ensures if i < |old(sources)| && old(sources)[i].mode == Secured && r.Ok?
              then Contents() == SaveRead(Run(old(Contents()), meanwhile), Seen(i, old(sources)[i]), locked, observedAt, now)
              else Contents() == old(Contents())
      ensures meanwhile == [] ==>
                Contents() == Committed(old(Contents()), ObserveSecured(old(Contents()), i, locked, observedAt, now))
      ensures Inv(old(Contents())) && r.Ok? && i < |old(sources)| && old(sources)[i].mode == Secured ==>
                var stored := Run(old(Contents()), meanwhile);
                && i < |stored.sources| && Accounts(Contents())
                && (Exact(Contents()) <==> HarmlessSecured(old(sources)[i], stored.sources[i], locked))
    {
      if i >= |sources| || sources[i].mode != Secured {
        return Ok(());
      }
      if locked > MAX_SAFE {
        return Err(UnsafeAmount);
      }
      var seen := sources[i];
      var source := seen;
      source := source.(locked := locked);
      source := source.(available := locked, observed := true);
      source := source.(staleAt := Some(observedAt + FRESHNESS_MS));
      if locked < source.reserved {
        source := source.(reclaimable := 0);
        source := source.(state := Insufficient);
        source := source.(failure := Some(AggregateInsufficient));
        if !Storable(source) {
          return Err(LockedWithoutProof);
        }
      } else {
        source := source.(failure := None);
        source :- StoreSource(source, now);
      }
      SaveSource(Seen(i, seen), source, locked, observedAt, now, meanwhile);
      return Ok(());
    }

    /** The save of a row that was read before. */
    method SaveSource(seen: Seen, row: Source, ghost locked: nat, ghost observedAt: int, ghost now: int,
                      meanwhile: seq<(Op, int)>)
      requires seen.i < |sources| && sources[seen.i] == seen.source && seen.source.mode == Secured
      requires SecuredRow(seen.source, locked, observedAt, now) == Ok(row)
      modifies this
      ensures Contents() == SaveRead(Run(old(Contents()), meanwhile), seen, locked, observedAt, now)
      ensures meanwhile == [] ==> Ok(Contents()) == ObserveSecured(old(Contents()), seen.i, locked, observedAt, now)
      ensures Inv(old(Contents())) ==>
                var stored := Run(old(Contents()), meanwhile);
                && seen.i < |stored.sources| && Accounts(Contents())
                && (Exact(Contents()) <==> HarmlessSecured(seen.source, stored.sources[seen.i], locked))
    {
      RunGrows(Contents(), meanwhile);
      if Inv(Contents()) {
        LateSecuredIff(Contents(), meanwhile, seen.i, locked, observedAt, now);
      }
      UnracedIsAtomic(Contents(), seen.i, locked, 0, observedAt, now);
      var stored := Run(Contents(), meanwhile);
      allocations := stored.allocations;
      sources := stored.sources[seen.i := Saved(seen.source, row, stored.sources[seen.i])];
    }
  }
}
