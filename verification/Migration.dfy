/** The legacy funding snapshot (src/migrations/fundingSources.ts): one operator-vault source per wallet and one
    allocation per session, built in one pass that accumulates the source totals. */
module Migration {
  import opened Wrappers
  import opened Money
  import opened Tallies
  import opened Funding
  import opened FundingInvariant

  datatype LegacySession = LegacySession(id: nat, limit: nat, spent: nat, open: bool)

  datatype LegacyFunding = LegacyFunding(confirmed: bool, proved: bool, amount: nat, chainConfirmedAt: Option<int>, confirmedAt: Option<int>)

  datatype Patch = Patch(state: SourceState, ready: bool, failure: Option<FailureCode>)

  datatype Snapshot = Snapshot(source: Source, allocations: seq<Allocation>, patches: seq<Patch>)

  function LeftOpen(s: LegacySession): nat {
    if s.limit > s.spent then s.limit - s.spent else 0
  }

  function ToAllocation(s: LegacySession): (a: Allocation) {
    var remaining := if s.open then LeftOpen(s) else 0;
    Allocation(0, s.id,
               if !s.open then Released else if remaining == 0 then Exhausted else Active,
               s.limit, s.spent, if s.open then 0 else LeftOpen(s), remaining)
  }

  function ToAllocations(sessions: seq<LegacySession>): (allocations: seq<Allocation>)
    ensures |allocations| == |sessions|
    ensures forall k :: 0 <= k < |sessions| ==> allocations[k] == ToAllocation(sessions[k])
  {
    seq(|sessions|, k requires 0 <= k < |sessions| => ToAllocation(sessions[k]))
  }

  function ProvedAmount(): LegacyFunding -> nat {
    (f: LegacyFunding) => if f.confirmed && f.proved then f.amount else 0
  }

  function ConfirmedTime(f: LegacyFunding): int {
    if f.chainConfirmedAt.Some? then f.chainConfirmedAt.value else 0
  }

  /** The first proved record with the greatest chain confirmation time. */
  function LatestProof(funding: seq<LegacyFunding>): (latest: Option<LegacyFunding>)
  {
    if funding == [] then None
    else
      var before, last := LatestProof(funding[..|funding| - 1]), funding[|funding| - 1];
      if !(last.confirmed && last.proved) then before
      else if before.Some? && ConfirmedTime(last) <= ConfirmedTime(before.value) then before
      else Some(last)
  }

  function ObservedAt(latest: Option<LegacyFunding>): Option<int> {
    if latest.None? then None
    else if latest.value.chainConfirmedAt.Some? then latest.value.chainConfirmedAt
    else latest.value.confirmedAt
  }

  function StaleAt(latest: Option<LegacyFunding>): Option<int> {
    if ObservedAt(latest).Some? then Some(ObservedAt(latest).value + FRESHNESS_MS) else None
  }

  function SnapshotState(proof: bool, staleAt: Option<int>, locked: nat, reserved: nat, now: int): SourceState {
    if !proof then Unverified
    else if !(staleAt.Some? && staleAt.value > now) then Stale
    else if locked < reserved then Insufficient
    else if locked == reserved then FullyAllocated else Available
  }

  function FailureOf(state: SourceState): Option<FailureCode> {
    match state
    case Unverified => Some(ProofRequired)
    case Stale => Some(ProofStale)
    case Insufficient => Some(AggregateInsufficient)
    case _ => None
  }

  /** The snapshot row by row: totals are sums over the allocations, and every session gets the same patch. */
  function Expected(sessions: seq<LegacySession>, funding: seq<LegacyFunding>, now: int): (s: Snapshot) {
    var allocations := ToAllocations(sessions);
    var locked, reserved := Tally(funding, ProvedAmount()), Tally(allocations, RemainingOf(0));
    var latest := LatestProof(funding);
    var state := SnapshotState(latest.Some?, StaleAt(latest), locked, reserved, now);
    Snapshot(
      Source(Secured, state, locked, reserved, locked, reserved,
             Tally(allocations, SpentOf(0)), Tally(allocations, ReleasedOf(0)),
             if locked > reserved then locked - reserved else 0,
             latest.Some?, ObservedAt(latest).Some?, StaleAt(latest), FailureOf(state)),
      allocations,
      seq(|sessions|, k => Patch(state, FailureOf(state).None?, FailureOf(state))))
  }

  predicate SafeSnapshot(s: Snapshot) {
    SafeSource(s.source) && forall k :: 0 <= k < |s.allocations| ==> SafeAllocation(s.allocations[k])
  }

  datatype Totals = Totals(authorized: nat, spent: nat, released: nat)

  ghost predicate TotalsOf(t: Totals, allocations: seq<Allocation>) {
    && t.authorized == Tally(allocations, RemainingOf(0))
    && t.spent == Tally(allocations, SpentOf(0))
    && t.released == Tally(allocations, ReleasedOf(0))
  }

  lemma AddToTotals(t: Totals, allocations: seq<Allocation>, a: Allocation)
    requires TotalsOf(t, allocations) && a.source == 0
    ensures TotalsOf(Totals(t.authorized + a.remaining, t.spent + a.spent, t.released + a.released), allocations + [a])
  {
    TallyAppend(allocations, a, RemainingOf(0));
    TallyAppend(allocations, a, SpentOf(0));
    TallyAppend(allocations, a, ReleasedOf(0));
  }

  /** First pass: one allocation a session and the running totals. A patch written here sees only the totals so
      far; the second pass rewrites it. */
  method MapSessions(sessions: seq<LegacySession>, locked: nat, proof: bool)
    returns (allocations: seq<Allocation>, patches: seq<Patch>, totals: Totals)
    ensures allocations == ToAllocations(sessions) && |patches| == |sessions| && TotalsOf(totals, allocations)
  {
    allocations, patches, totals := [], [], Totals(0, 0, 0);
    for k := 0 to |sessions|
      invariant allocations == ToAllocations(sessions[..k]) && |patches| == k && TotalsOf(totals, allocations)
    {
      var session := sessions[k];
      var left := if session.limit > session.spent then session.limit - session.spent else 0;
      var released := if session.open then 0 else left;
      var remaining := if session.open then left else 0;
      var state := if session.open then (if remaining == 0 then Exhausted else Active) else Released;
      var allocation := Allocation(0, session.id, state, session.limit, session.spent, released, remaining);
      AddToTotals(totals, allocations, allocation);
      totals := Totals(totals.authorized + remaining, totals.spent + session.spent, totals.released + released);
      allocations := allocations + [allocation];
      patches := patches + [Patch(if !proof then Unverified else if locked < totals.authorized then Insufficient
                                  else if locked == totals.authorized then FullyAllocated else Available,
                                  proof && locked >= totals.authorized,
                                  if !proof then Some(ProofRequired)
                                  else if locked < totals.authorized then Some(AggregateInsufficient) else None)];
      assert allocations == ToAllocations(sessions[..k + 1]);
    }
    assert sessions[..|sessions|] == sessions;
  }

  method BuildLegacyFundingMigrationSnapshot(sessions: seq<LegacySession>, funding: seq<LegacyFunding>, now: int)
    returns (r: Result<Snapshot, FundingError>)
    ensures r == if SafeSnapshot(Expected(sessions, funding, now))
                 then Ok(Expected(sessions, funding, now)) else Err(UnsafeAmount)
  {
    var locked, latest := ScanFunding(funding);
    var proof, staleAt := latest.Some?, StaleAt(latest);
    var proofFresh := staleAt.Some? && staleAt.value > now;
    var allocations, patches, totals := MapSessions(sessions, locked, proof);
    var reserved := totals.authorized;
    var reclaimable := if locked > reserved then locked - reserved else 0;
    var state := if !proof then Unverified else if !proofFresh then Stale
                 else if locked < reserved then Insufficient
                 else if reclaimable == 0 then FullyAllocated else Available;
    var patch := Patch(state, proof && proofFresh && locked >= reserved,
                       if !proof then Some(ProofRequired) else if !proofFresh then Some(ProofStale)
                       else if locked < reserved then Some(AggregateInsufficient) else None);
    for k := 0 to |patches|
      invariant |patches| == |sessions| && forall j :: 0 <= j < k ==> patches[j] == patch
    {
      patches := patches[k := patch];
    }
    var source := Source(Secured, state, locked, reserved, locked, reserved, totals.spent, totals.released, reclaimable,
                         proof, ObservedAt(latest).Some?, staleAt,
                         if state == Unverified then Some(ProofRequired) else if state == Stale then Some(ProofStale)
                         else if state == Insufficient then Some(AggregateInsufficient) else None);
    var snapshot := Snapshot(source, allocations, patches);
    assert patches == Expected(sessions, funding, now).patches;
    r := if SafeSnapshot(snapshot) then Ok(snapshot) else Err(UnsafeAmount);
  }

  method ScanFunding(funding: seq<LegacyFunding>) returns (locked: nat, latest: Option<LegacyFunding>)
    ensures locked == Tally(funding, ProvedAmount()) && latest == LatestProof(funding)
  {
    locked, latest := 0, None;
    for i := 0 to |funding|
      invariant locked == Tally(funding[..i], ProvedAmount()) && latest == LatestProof(funding[..i])
    {
      assert funding[..i + 1][..i] == funding[..i];
      var record := funding[i];
      if record.confirmed && record.proved {
        locked := locked + record.amount;
        if latest.None? || ConfirmedTime(record) > ConfirmedTime(latest.value) {
          latest := Some(record);
        }
      }
    }
    assert funding[..|funding|] == funding;
  }

  lemma {:induction false} NothingLockedWithoutProof(funding: seq<LegacyFunding>)
    ensures LatestProof(funding).None? ==> Tally(funding, ProvedAmount()) == 0
  {
    if funding != [] {
      NothingLockedWithoutProof(funding[..|funding| - 1]);
    }
  }

  /** What a session becomes: an open one keeps what it has not spent, and is exhausted without; a closed one has released
      it. Its limit and what it spent are taken over. */
  lemma SessionBecomes(s: LegacySession)
    ensures var a := ToAllocation(s);
            && a.source == 0 && a.session == s.id && a.authorized == s.limit && a.spent == s.spent
            && (s.open ==> a.released == 0 && a.remaining == (if s.spent < s.limit then s.limit - s.spent else 0))
            && (!s.open ==> a.remaining == 0 && a.released == (if s.spent < s.limit then s.limit - s.spent else 0))
            && (a.state == Active <==> s.open && s.spent < s.limit)
            && (a.state == Exhausted <==> s.open && s.limit <= s.spent)
            && (a.state == Released <==> !s.open)
  {}

  /** What the snapshot of a wallet says of its source: the sums over its sessions and its proved funding, how they compare
      if the latest proof is fresh, and the failure that goes with it; every session is told the same. */
  lemma SnapshotSays(sessions: seq<LegacySession>, funding: seq<LegacyFunding>, now: int)
    ensures var s, latest := Expected(sessions, funding, now), LatestProof(funding);
            var current := latest.Some? && ObservedAt(latest).Some? && now < ObservedAt(latest).value + 300_000;
            && s.source.mode == Secured && s.source.proof == latest.Some? && s.source.observed == ObservedAt(latest).Some?
            && s.source.locked == s.source.available == Tally(funding, ProvedAmount())
            && s.source.reserved == s.source.authorized == Tally(ToAllocations(sessions), RemainingOf(0))
            && s.source.spent == Tally(ToAllocations(sessions), SpentOf(0))
            && s.source.released == Tally(ToAllocations(sessions), ReleasedOf(0))
            && s.source.reclaimable == Above(s.source.locked, s.source.reserved)
            && (s.source.staleAt == if ObservedAt(latest).Some? then Some(ObservedAt(latest).value + 300_000) else None)
            && (s.source.state == Unverified <==> latest.None?)
            && (s.source.state == Stale <==> latest.Some? && !current)
            && (s.source.state == Insufficient <==> current && s.source.locked < s.source.reserved)
            && (s.source.state == FullyAllocated <==> current && s.source.locked == s.source.reserved)
            && (s.source.state == Available <==> current && s.source.locked > s.source.reserved)
            && (s.source.failure == if latest.None? then Some(ProofRequired) else if !current then Some(ProofStale)
                                    else if s.source.locked < s.source.reserved then Some(AggregateInsufficient) else None)
            && |s.patches| == |sessions|
            && forall k :: 0 <= k < |sessions| ==>
                 s.patches[k] == Patch(s.source.state, s.source.failure == None, s.source.failure)
  {}

  /** A record counts exactly when it is confirmed and proved, and is dated by its chain confirmation or, without one, by its
      confirmation; the latest proof is the first of those with the latest chain confirmation. */
  lemma {:induction false} LatestProofIs(funding: seq<LegacyFunding>)
    ensures LatestProof(funding).None? <==> forall i :: 0 <= i < |funding| ==> !(funding[i].confirmed && funding[i].proved)
    ensures LatestProof(funding).Some? ==>
              exists i :: 0 <= i < |funding| && funding[i] == LatestProof(funding).value && funding[i].confirmed && funding[i].proved
                          && (forall j :: 0 <= j < |funding| && funding[j].confirmed && funding[j].proved ==>
                                ConfirmedTime(funding[j]) <= ConfirmedTime(funding[i])
                                && (j < i ==> ConfirmedTime(funding[j]) < ConfirmedTime(funding[i])))
  {
    if funding != [] {
      var n := |funding| - 1;
      LatestProofIs(funding[..n]);
      assert forall i :: 0 <= i < n ==> funding[..n][i] == funding[i];
      if funding[n].confirmed && funding[n].proved && LatestProof(funding) == Some(funding[n]) {
        assert funding[n] == LatestProof(funding).value;
      }
    }
  }

  /** Its time is that of its chain confirmation, and none counts as the beginning of time. */
  lemma ProofTimes(f: LegacyFunding)
    ensures ConfirmedTime(f) == match f.chainConfirmedAt case Some(t) => t case None => 0
    ensures ObservedAt(Some(f)) == if f.chainConfirmedAt.Some? then f.chainConfirmedAt else f.confirmedAt
    ensures ProvedAmount()(f) == if f.confirmed && f.proved then f.amount else 0
  {}

  ghost predicate DistinctSessions(sessions: seq<LegacySession>) {
    forall j, k :: 0 <= j < k < |sessions| ==> sessions[j].id != sessions[k].id
  }

  /** The snapshot starts the funding ledger in its invariant if and only if no session had spent more than its
      limit; an overspent session leaves an allocation that does not add up. */
  lemma SnapshotEstablishesInvariant(sessions: seq<LegacySession>, funding: seq<LegacyFunding>, now: int)
    requires DistinctSessions(sessions) && SafeSnapshot(Expected(sessions, funding, now))
    ensures var s := Expected(sessions, funding, now);
            Inv(Ledger([s.source], s.allocations)) <==>
            forall k :: 0 <= k < |sessions| ==> sessions[k].spent <= sessions[k].limit
  {
    var s := Expected(sessions, funding, now);
    var l := Ledger([s.source], s.allocations);
    NothingLockedWithoutProof(funding);
    assert SourceFields(s.source) && SourceSums(l, 0);
    forall k | 0 <= k < |sessions|
      ensures AllocationFields(l.allocations[k], 1) <==> sessions[k].spent <= sessions[k].limit
    {
      assert l.allocations[k] == ToAllocation(sessions[k]);
    }
    if forall k :: 0 <= k < |sessions| ==> sessions[k].spent <= sessions[k].limit {
      assert OnePerSession(l.allocations);
      assert Inv(l);
    }
  }

  /** For any amounts, a single overspent session gives a snapshot that is stored and does not satisfy the invariant. */
  lemma OverspentSnapshot(id: nat, limit: nat, spent: nat, open: bool, now: int)
    requires limit < spent <= MAX_SAFE
    ensures var s := Expected([LegacySession(id, limit, spent, open)], [], now);
            && SafeSnapshot(s) && !Inv(Ledger([s.source], s.allocations))
            && |s.allocations| == 1 && s.allocations[0].spent > s.allocations[0].authorized
  {
    var session := LegacySession(id, limit, spent, open);
    var s := Expected([session], [], now);
    assert s.allocations == [ToAllocation(session)];
    TallyOne(ToAllocation(session), RemainingOf(0));
    TallyOne(ToAllocation(session), SpentOf(0));
    TallyOne(ToAllocation(session), ReleasedOf(0));
    assert [session][0].spent > [session][0].limit;
    SnapshotEstablishesInvariant([session], [], now);
  }
}
