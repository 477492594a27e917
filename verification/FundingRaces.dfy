/** Balance observations read a source and save it later, outside a transaction (src/services/fundingSource.service.ts,
    recordConnectedWalletBalance and recordSecuredFundingBalance). A save writes only the fields that differ from what
    was read; other operations may have moved the row meanwhile. */
module FundingRaces {
  import opened Wrappers
  import opened Money
  import opened Funding
  import opened FundingInvariant

  /** The stored row after the row read as `seen` is saved as `row`: only changed fields are written. */
  function Saved(seen: Source, row: Source, stored: Source): Source {
    stored.(
    state := if row.state != seen.state then row.state else stored.state,
    available := if row.available != seen.available then row.available else stored.available,
    locked := if row.locked != seen.locked then row.locked else stored.locked,
    reclaimable := if row.reclaimable != seen.reclaimable then row.reclaimable else stored.reclaimable,
    observed := if row.observed != seen.observed then row.observed else stored.observed,
    staleAt := if row.staleAt != seen.staleAt then row.staleAt else stored.staleAt,
    failure := if row.failure != seen.failure then row.failure else stored.failure)
  }

  function LateWrite(l: Ledger, i: nat, seen: Source, row: Source): Ledger
    requires i < |l.sources|
  {
    l.(sources := l.sources[i := Saved(seen, row, l.sources[i])])
  }

  /** If nobody moved the row in between, reading and saving are the one atomic observation. */
  lemma UnracedIsAtomic(l: Ledger, i: nat, locked: nat, available: nat, observedAt: int, now: int)
    requires i < |l.sources|
    ensures var s := l.sources[i];
            && (s.mode == Secured && SecuredRow(s, locked, observedAt, now).Ok? ==>
                  Ok(LateWrite(l, i, s, SecuredRow(s, locked, observedAt, now).value))
                  == ObserveSecured(l, i, locked, observedAt, now))
            && (s.mode == Connected && ConnectedRow(s, available, observedAt, now).Ok? ==>
                  Ok(LateWrite(l, i, s, ConnectedRow(s, available, observedAt, now).value))
                  == ObserveConnected(l, i, available, observedAt, now))
  {}

  // When a late save is harmless.

  /** A save keeps the reclaimable amount exact, by what was observed and what moved since the read: `held` and `promised`
      are the amounts then, `heldNow` and `promisedNow` those stored now. An observation that found nothing new writes
      nothing. One that writes a new surplus needs the promises unmoved, unless both leave no surplus. One that found no
      surplus, and read none, leaves the stored surplus, which must be right for what it wrote. */
  predicate SurplusStays(observed: nat, held: nat, promised: nat, heldNow: nat, promisedNow: nat) {
    if observed == held then true
    else if observed > promised || held > promised then
      promisedNow == promised || (observed <= promised && observed <= promisedNow)
    else observed == heldNow || (observed <= promisedNow && heldNow <= promisedNow)
  }

  /** A save leaves a shortfall recorded: there is none, or it writes the failure code, or it writes none and one is
      stored. */
  predicate ShortfallStaysRecorded(observed: nat, seen: Source, stored: Source) {
    || (if observed != seen.locked then observed else stored.locked) >= stored.reserved
    || if observed < seen.reserved then seen.failure == Some(AggregateInsufficient) ==> stored.failure.Some?
       else seen.failure.None? && stored.failure.Some?
  }

  predicate HarmlessSecured(seen: Source, stored: Source, locked: nat) {
    && SurplusStays(locked, seen.locked, seen.reserved, stored.locked, stored.reserved)
    && ShortfallStaysRecorded(locked, seen, stored)
  }

  predicate HarmlessConnected(seen: Source, stored: Source, available: nat) {
    SurplusStays(available, seen.available, seen.authorized, stored.available, stored.authorized)
  }

  predicate Harmless(seen: Source, stored: Source, amount: nat) {
    if seen.mode == Secured then HarmlessSecured(seen, stored, amount) else HarmlessConnected(seen, stored, amount)
  }

  /** What an observation makes of the row it read. */
  function RowOf(seen: Source, amount: nat, observedAt: int, now: int): Result<Source, FundingError> {
    if seen.mode == Secured then SecuredRow(seen, amount, observedAt, now) else ConnectedRow(seen, amount, observedAt, now)
  }

  /** The guards decide whether the surplus a save leaves is the surplus. */
  lemma SurplusStaysIff(observed: nat, held: nat, promised: nat, heldNow: nat, promisedNow: nat)
    ensures var surplus := if Above(observed, promised) != Above(held, promised) then Above(observed, promised)
                           else Above(heldNow, promisedNow);
            SurplusStays(observed, held, promised, heldNow, promisedNow)
            <==> surplus == Above(if observed != held then observed else heldNow, promisedNow)
  {}

  lemma SavedSecuredIff(seen: Source, stored: Source, locked: nat, observedAt: int, now: int)
    requires SourceFields(seen) && SourceFields(stored) && seen.mode == stored.mode == Secured
    requires SecuredRow(seen, locked, observedAt, now).Ok?
    ensures SourceExact(Saved(seen, SecuredRow(seen, locked, observedAt, now).value, stored))
            <==> HarmlessSecured(seen, stored, locked)
  {
    SurplusStaysIff(locked, seen.locked, seen.reserved, stored.locked, stored.reserved);
  }

  lemma SavedConnectedIff(seen: Source, stored: Source, available: nat, observedAt: int, now: int)
    requires SourceFields(seen) && SourceFields(stored) && seen.mode == stored.mode == Connected
    requires ConnectedRow(seen, available, observedAt, now).Ok?
    ensures SourceExact(Saved(seen, ConnectedRow(seen, available, observedAt, now).value, stored))
            <==> HarmlessConnected(seen, stored, available)
  {
    SurplusStaysIff(available, seen.available, seen.authorized, stored.available, stored.authorized);
  }

  /** Late or not, a save keeps the row safe and moves nothing. */
  lemma SavedBasics(seen: Source, stored: Source, amount: nat, observedAt: int, now: int)
    requires SourceBasics(seen) && SourceBasics(stored) && seen.mode == stored.mode && (seen.proof ==> stored.proof)
    requires RowOf(seen, amount, observedAt, now).Ok?
    ensures var w := Saved(seen, RowOf(seen, amount, observedAt, now).value, stored);
            SourceBasics(w) && SameMoved(stored, w) && w.proof == stored.proof
  {}

  lemma LateSaveIff(l: Ledger, i: nat, seen: Source, amount: nat, observedAt: int, now: int)
    requires Inv(l) && i < |l.sources| && SourceFields(seen)
    requires seen.mode == l.sources[i].mode && (seen.proof ==> l.sources[i].proof)
    requires RowOf(seen, amount, observedAt, now).Ok?
    ensures var m := LateWrite(l, i, seen, RowOf(seen, amount, observedAt, now).value);
            Accounts(m) && (Exact(m) <==> Harmless(seen, l.sources[i], amount))
  {
    SourceFieldsOf(l, i);
    var w := Saved(seen, RowOf(seen, amount, observedAt, now).value, l.sources[i]);
    SavedBasics(seen, l.sources[i], amount, observedAt, now);
    ReplaceSource(l, i, w);
    if seen.mode == Secured {
      SavedSecuredIff(seen, l.sources[i], amount, observedAt, now);
    } else {
      SavedConnectedIff(seen, l.sources[i], amount, observedAt, now);
    }
    assert LateWrite(l, i, seen, RowOf(seen, amount, observedAt, now).value).sources[i] == w;
  }

  /** No operation changes a source's mode or takes its proof away. */
  ghost predicate Grows(l: Ledger, m: Ledger) {
    && |l.sources| <= |m.sources|
    && forall i :: 0 <= i < |l.sources| ==>
         m.sources[i].mode == l.sources[i].mode && (l.sources[i].proof ==> m.sources[i].proof)
  }

  lemma MovementGrows(l: Ledger, op: Op, now: int)
    requires op.DoSpend? || op.DoRelease? || op.DoTopUp? || op.DoAllocate?
    ensures Grows(l, Step(l, op, now))
  {
    var outcome := Attempt(l, op, now);
  }

  lemma StepGrows(l: Ledger, op: Op, now: int)
    ensures Grows(l, Step(l, op, now))
  {
    if op.DoSpend? || op.DoRelease? || op.DoTopUp? || op.DoAllocate? {
      MovementGrows(l, op, now);
    } else {
      ObservationGrows(l, op, now);
    }
  }

  lemma ObservationGrows(l: Ledger, op: Op, now: int)
    requires !op.DoSpend? && !op.DoRelease? && !op.DoTopUp? && !op.DoAllocate?
    ensures Grows(l, Step(l, op, now))
  {}

  lemma {:induction false} RunGrows(l: Ledger, ops: seq<(Op, int)>)
    ensures Grows(l, Run(l, ops))
  {
    if ops != [] {
      RunGrows(l, ops[..|ops| - 1]);
      StepGrows(Run(l, ops[..|ops| - 1]), ops[|ops| - 1].0, ops[|ops| - 1].1);
    }
  }

  /** Whatever ran between the read and the save, the late save keeps conservation, and shortfall safety exactly when it
      is harmless. */
  lemma LateSecuredIff(before: Ledger, ops: seq<(Op, int)>, i: nat, locked: nat, observedAt: int, now: int)
    requires Inv(before) && i < |before.sources| && before.sources[i].mode == Secured
    requires SecuredRow(before.sources[i], locked, observedAt, now).Ok?
    ensures var l, seen := Run(before, ops), before.sources[i];
            && i < |l.sources|
            && var m := LateWrite(l, i, seen, SecuredRow(seen, locked, observedAt, now).value);
               Accounts(m) && (Exact(m) <==> HarmlessSecured(seen, l.sources[i], locked))
  {
    var l, seen := Run(before, ops), before.sources[i];
    RunKeeps(before, ops);
    RunGrows(before, ops);
    SourceFieldsOf(before, i);
    SourceFieldsOf(l, i);
    LateSaveIff(l, i, seen, locked, observedAt, now);
  }

  lemma LateConnectedIff(before: Ledger, ops: seq<(Op, int)>, i: nat, available: nat, observedAt: int, now: int)
    requires Inv(before) && i < |before.sources| && before.sources[i].mode == Connected
    requires ConnectedRow(before.sources[i], available, observedAt, now).Ok?
    ensures var l, seen := Run(before, ops), before.sources[i];
            && i < |l.sources|
            && var m := LateWrite(l, i, seen, ConnectedRow(seen, available, observedAt, now).value);
               Accounts(m) && (Exact(m) <==> HarmlessConnected(seen, l.sources[i], available))
  {
    var l, seen := Run(before, ops), before.sources[i];
    RunKeeps(before, ops);
    RunGrows(before, ops);
    SourceFieldsOf(before, i);
    SourceFieldsOf(l, i);
    LateSaveIff(l, i, seen, available, observedAt, now);
  }

  /** If the counters the observation reads did not move in between, saving late is harmless. */
  lemma UnmovedIsHarmless(seen: Source, stored: Source, amount: nat)
    requires SourceFields(seen) && SourceFields(stored) && stored.mode == seen.mode
    requires stored.reserved == seen.reserved && stored.authorized == seen.authorized
    requires stored.locked == seen.locked && stored.available == seen.available && stored.failure == seen.failure
    ensures Harmless(seen, stored, amount)
  {}

  // Whole runs with reads and saves apart.

  datatype Seen = Seen(i: nat, source: Source)

  /** An observation is a read and, at any later time, the save of what it saw. */
  datatype RacyOp = Atomic(op: Op) | Read(i: nat) | Save(r: nat, amount: nat, observedAt: int)

  datatype World = World(ledger: Ledger, rows: seq<Seen>)

  const START: World := World(EMPTY, [])

  function SaveRead(l: Ledger, seen: Seen, amount: nat, observedAt: int, now: int): Ledger {
    if seen.i < |l.sources| && RowOf(seen.source, amount, observedAt, now).Ok?
    then LateWrite(l, seen.i, seen.source, RowOf(seen.source, amount, observedAt, now).value) else l
  }

  function RacyStep(w: World, op: RacyOp, now: int): World {
    match op
    case Atomic(fop) => w.(ledger := Step(w.ledger, fop, now))
    case Read(i) => if i < |w.ledger.sources| then w.(rows := w.rows + [Seen(i, w.ledger.sources[i])]) else w
    case Save(r, amount, observedAt) =>
      if r < |w.rows| then w.(ledger := SaveRead(w.ledger, w.rows[r], amount, observedAt, now)) else w
  }

  function RacyRun(ops: seq<(RacyOp, int)>): World {
    if ops == [] then START else RacyStep(RacyRun(ops[..|ops| - 1]), ops[|ops| - 1].0, ops[|ops| - 1].1)
  }

  ghost predicate ReadOk(l: Ledger, seen: Seen) {
    && seen.i < |l.sources| && SourceBasics(seen.source)
    && l.sources[seen.i].mode == seen.source.mode && (seen.source.proof ==> l.sources[seen.i].proof)
  }

  ghost predicate WorldOk(w: World) {
    Accounts(w.ledger) && forall r :: 0 <= r < |w.rows| ==> ReadOk(w.ledger, w.rows[r])
  }

  lemma SaveAccounts(l: Ledger, seen: Seen, amount: nat, observedAt: int, now: int)
    requires Accounts(l) && ReadOk(l, seen)
    ensures var m := SaveRead(l, seen, amount, observedAt, now);
            Accounts(m) && Grows(l, m)
  {
    if RowOf(seen.source, amount, observedAt, now).Ok? {
      SavedBasics(seen.source, l.sources[seen.i], amount, observedAt, now);
      ReplaceSource(l, seen.i, Saved(seen.source, RowOf(seen.source, amount, observedAt, now).value, l.sources[seen.i]));
    }
  }

  lemma ReadsKept(l: Ledger, m: Ledger, rows: seq<Seen>)
    requires Grows(l, m) && forall r :: 0 <= r < |rows| ==> ReadOk(l, rows[r])
    ensures forall r :: 0 <= r < |rows| ==> ReadOk(m, rows[r])
  {
    forall r | 0 <= r < |rows| ensures ReadOk(m, rows[r]) {
      assert ReadOk(l, rows[r]);
    }
  }

  lemma RacyStepKeeps(w: World, op: RacyOp, now: int)
    requires WorldOk(w)
    ensures WorldOk(RacyStep(w, op, now))
  {
    match op
    case Atomic(fop) =>
      StepAccounts(w.ledger, fop, now);
      StepGrows(w.ledger, fop, now);
      ReadsKept(w.ledger, Step(w.ledger, fop, now), w.rows);
    case Read(i) =>
    case Save(r, amount, observedAt) =>
      if r < |w.rows| {
        assert ReadOk(w.ledger, w.rows[r]);
        SaveAccounts(w.ledger, w.rows[r], amount, observedAt, now);
        ReadsKept(w.ledger, SaveRead(w.ledger, w.rows[r], amount, observedAt, now), w.rows);
      }
  }

  lemma {:induction false} RacyRunKeeps(ops: seq<(RacyOp, int)>)
    ensures WorldOk(RacyRun(ops))
  {
    if ops == [] {
      EmptyLedger();
    } else {
      RacyRunKeeps(ops[..|ops| - 1]);
      RacyStepKeeps(RacyRun(ops[..|ops| - 1]), ops[|ops| - 1].0, ops[|ops| - 1].1);
    }
  }

  /** Conservation needs no atomic observations: in every ledger reachable from the empty one, with saves as late as they
      may be, each allocation is what was spent, released and remains of it, each source's authorized, spent and
      released amounts are the sums over the allocations drawn on it, and a secured source reserves what it promised. */
  lemma ReachableConserves(ops: seq<(RacyOp, int)>)
    ensures var l := RacyRun(ops).ledger;
            && (forall k :: 0 <= k < |l.allocations| ==>
                  var a := l.allocations[k];
                  a.source < |l.sources| && a.authorized == a.spent + a.released + a.remaining)
            && (forall i :: 0 <= i < |l.sources| ==> SourceSums(l, i))
            && (forall i :: 0 <= i < |l.sources| && l.sources[i].mode == Secured ==>
                  l.sources[i].reserved == l.sources[i].authorized && l.sources[i].available == l.sources[i].locked)
  {
    RacyRunKeeps(ops);
    var l := RacyRun(ops).ledger;
    forall k | 0 <= k < |l.allocations|
      ensures l.allocations[k].source < |l.sources|
              && l.allocations[k].authorized
                 == l.allocations[k].spent + l.allocations[k].released + l.allocations[k].remaining
    {
      assert AllocationFields(l.allocations[k], |l.sources|);
    }
    forall i | 0 <= i < |l.sources| && l.sources[i].mode == Secured
      ensures l.sources[i].reserved == l.sources[i].authorized && l.sources[i].available == l.sources[i].locked
    {
      assert SourceBasics(l.sources[i]);
    }
  }

  ghost predicate ReadsExact(w: World) {
    forall r :: 0 <= r < |w.rows| ==> SourceExact(w.rows[r].source)
  }

  /** A save of this run that is not harmless for what moved since its read. */
  predicate Harms(w: World, op: RacyOp, now: int) {
    && op.Save? && op.r < |w.rows|
    && var seen := w.rows[op.r];
       && seen.i < |w.ledger.sources| && RowOf(seen.source, op.amount, op.observedAt, now).Ok?
       && !Harmless(seen.source, w.ledger.sources[seen.i], op.amount)
  }

  lemma RacyStepExactIff(w: World, op: RacyOp, now: int)
    requires WorldOk(w) && Exact(w.ledger) && ReadsExact(w)
    ensures Exact(RacyStep(w, op, now).ledger) <==> !Harms(w, op, now)
    ensures ReadsExact(RacyStep(w, op, now))
  {
    match op
    case Atomic(fop) => StepExact(w.ledger, fop, now);
    case Read(i) =>
    case Save(r, amount, observedAt) =>
      if r < |w.rows| && RowOf(w.rows[r].source, amount, observedAt, now).Ok? {
        assert ReadOk(w.ledger, w.rows[r]);
        LateSaveIff(w.ledger, w.rows[r].i, w.rows[r].source, amount, observedAt, now);
      }
  }

  /** The reclaimable amounts are exact and shortfalls recorded all along the run. */
  ghost predicate ExactAlong(ops: seq<(RacyOp, int)>)
    decreases |ops|
  {
    Exact(RacyRun(ops).ledger) && (ops != [] ==> ExactAlong(ops[..|ops| - 1]))
  }

  /** No save of the run harms. */
  predicate HarmlessAlong(ops: seq<(RacyOp, int)>) {
    ops != [] ==>
      && !Harms(RacyRun(ops[..|ops| - 1]), ops[|ops| - 1].0, ops[|ops| - 1].1)
      && HarmlessAlong(ops[..|ops| - 1])
  }

  lemma {:induction false} ReadsAreExact(ops: seq<(RacyOp, int)>)
    requires ExactAlong(ops)
    ensures ReadsExact(RacyRun(ops))
  {
    if ops != [] {
      var n := |ops| - 1;
      ReadsAreExact(ops[..n]);
      RacyRunKeeps(ops[..n]);
      RacyStepExactIff(RacyRun(ops[..n]), ops[n].0, ops[n].1);
    }
  }

  /** Shortfall safety over whole runs: it holds all along a run if and only if every late save of the run is harmless
      for what moved between its read and itself. */
  lemma {:induction false} ExactAlongIff(ops: seq<(RacyOp, int)>)
    ensures ExactAlong(ops) <==> HarmlessAlong(ops)
  {
    if ops == [] {
      EmptyLedger();
    } else {
      var n := |ops| - 1;
      ExactAlongIff(ops[..n]);
      if ExactAlong(ops[..n]) {
        ReadsAreExact(ops[..n]);
        RacyRunKeeps(ops[..n]);
        assert Exact(RacyRun(ops[..n]).ledger);
        RacyStepExactIff(RacyRun(ops[..n]), ops[n].0, ops[n].1);
      }
    }
  }

  // Two races.

  lemma RacySnoc(ops: seq<(RacyOp, int)>, op: RacyOp, now: int)
    ensures RacyRun(ops + [(op, now)]) == RacyStep(RacyRun(ops), op, now)
  {
    assert (ops + [(op, now)])[..|ops|] == ops;
  }

  /** The source holds less than it promised, and nothing records it. */
  predicate HidesShortfall(s: Source) {
    s.mode == Secured && s.locked < s.reserved && s.failure == None
  }

  /** The network locks `n` units; an observation reads the source; an amount is promised to a pass; and the observation
      saves what it saw. */
  function SecuredRace(n: nat, amount: nat, locked: nat, now: int): seq<(RacyOp, int)> {
    [(Atomic(AddProof(n, now)), now)] + [(Read(0), now)] + [(Atomic(DoAllocate(0, 0, amount)), now)] + [(Save(0, locked, now), now)]
  }

  /** For any amounts, an observation of fewer units than were promised meanwhile hides the shortfall. */
  lemma LateWriteHidesShortfall(n: nat, amount: nat, locked: nat, now: int)
    requires locked < amount <= n <= MAX_SAFE
    ensures var l := RacyRun(SecuredRace(n, amount, locked, now)).ledger;
            |l.sources| == 1 && HidesShortfall(l.sources[0])
  {
    var first := [(Atomic(AddProof(n, now)), now)];
    RacySnoc([], Atomic(AddProof(n, now)), now);
    assert [] + first == first;
    RacySnoc(first, Read(0), now);
    RacySnoc(first + [(Read(0), now)], Atomic(DoAllocate(0, 0, amount)), now);
    RacySnoc(first + [(Read(0), now)] + [(Atomic(DoAllocate(0, 0, amount)), now)], Save(0, locked, now), now);
  }

  /** A connected wallet that holds `held` units is observed in the same way. */
  function ConnectedRace(held: nat, amount: nat, available: nat, now: int): seq<(RacyOp, int)> {
    [(Atomic(AddConnected), now)] + [(Atomic(SeeConnected(0, held, now)), now)] + [(Read(0), now)]
    + [(Atomic(DoAllocate(0, 0, amount)), now)] + [(Save(0, available, now), now)]
  }

  /** For any amounts, another balance than the one read is saved as reclaimable in full, although part of it was promised
      meanwhile. */
  lemma LateWriteOverstates(held: nat, amount: nat, available: nat, now: int)
    requires 0 < amount <= MAX_SAFE && held <= MAX_SAFE && 0 < available <= MAX_SAFE && available != held
    ensures var l := RacyRun(ConnectedRace(held, amount, available, now)).ledger;
            && |l.sources| == 1 && l.sources[0].mode == Connected && l.sources[0].authorized == amount
            && l.sources[0].reclaimable == l.sources[0].available == available
  {
    var added := [(Atomic(AddConnected), now)];
    var seen := added + [(Atomic(SeeConnected(0, held, now)), now)];
    RacySnoc([], Atomic(AddConnected), now);
    assert [] + added == added;
    RacySnoc(added, Atomic(SeeConnected(0, held, now)), now);
    RacySnoc(seen, Read(0), now);
    RacySnoc(seen + [(Read(0), now)], Atomic(DoAllocate(0, 0, amount)), now);
    RacySnoc(seen + [(Read(0), now)] + [(Atomic(DoAllocate(0, 0, amount)), now)], Save(0, available, now), now);
  }
}
