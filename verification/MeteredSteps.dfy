/** Accepting, releasing and finalizing keep the metered ledger's invariant. */
module MeteredSteps {
  import opened Wrappers
  import opened Money
  import opened Tallies
  import opened Receipts
  import opened Metered
  import opened MeteredInvariant
  import Funding
  import FundingInvariant

  // Accepting one event.

  ghost predicate Acceptable(b: Books, owner: nat, u: Usage, now: int) {
    Inv(b) && u.amount > 0 && Admit(b, owner, u, now).Ok? && FindEvent(b.events, u.app, u.externalId).None?
  }

  /** What the guards leave for the proofs. */
  ghost predicate Fitting(b: Books, u: Usage, now: int) {
    && Inv(b) && u.amount > 0 && FindEvent(b.events, u.app, u.externalId).None?
    && u.grant < |b.grants|
    && var g := b.grants[u.grant];
       && g.status == Active && u.amount <= g.maxPerEvent && u.amount <= g.totalLimit - g.spent - g.reserved
       && g.windowSeconds >= 1 && Admitted(b, u.grant, WindowStart(now, g.windowSeconds)) < g.rateCount
       && g.session < |b.sessions|
       && var s := b.sessions[g.session];
          s.spent + s.reserved + u.amount <= s.limit && s.reserved + u.amount <= MAX_SAFE
  }

  /** Making room only closes the batch that was accepting, and adds an empty one at the end. */
  ghost predicate Roomy(batches: seq<Batch>, u: Usage, g: Grant, now: int, room: seq<Batch>, k: nat) {
    && |batches| <= |room| <= |batches| + 1 && k < |room|
    && (|room| == |batches| ==>
          && room == batches && batches[k].accepting && batches[k].grant == u.grant
          && u.amount < g.threshold && !MustClose(batches[k], g, u.amount))
    && (|room| > |batches| ==>
          && k == |batches| && room[k] == NewBatch(u, g, now)
          && (u.amount < g.threshold ==> forall j :: 0 <= j < k && room[j].accepting ==> room[j].grant != u.grant))
    && (forall j :: 0 <= j < |batches| ==>
          room[j] == batches[j] || (batches[j].accepting && room[j] == Close(batches[j], now)))
  }

  lemma RoomIsMade(batches: seq<Batch>, u: Usage, g: Grant, now: int)
    requires OneAccepting(batches)
    ensures Roomy(batches, u, g, now, MakeRoom(batches, u, g, now).0, MakeRoom(batches, u, g, now).1)
  {
    var found := FindAccepting(batches, u.grant);
    if u.amount < g.threshold && found.Some? {
      forall j | 0 <= j < |batches| && j != found.value && batches[j].accepting ensures batches[j].grant != u.grant {
        assert batches[found.value].accepting;
      }
    }
  }

  /** The rows an accepted event leaves, without how its batch was found. */
  ghost predicate Accepts(b: Books, u: Usage, now: int, m: Books, room: seq<Batch>, k: nat) {
    && Fitting(b, u, now)
    && var g := b.grants[u.grant];
       var s := b.sessions[g.session];
       && Roomy(b.batches, u, g, now, room, k)
       && m == b.(sessions := b.sessions[g.session := s.(reserved := s.reserved + u.amount)],
                  grants := b.grants[u.grant := g.(reserved := g.reserved + u.amount)],
                  batches := room[k := AddTo(room[k], g, u.amount, now)],
                  events := b.events + [Event(u, k, EventReserved, now, None)],
                  windows := m.windows)
       && m.windows == b.windows[(u.grant, WindowStart(now, g.windowSeconds)) :=
                                   Admitted(b, u.grant, WindowStart(now, g.windowSeconds)) + 1]
  }

  lemma AcceptRows(b: Books, owner: nat, u: Usage, now: int) returns (room: seq<Batch>, k: nat)
    requires Acceptable(b, owner, u, now)
    ensures Accepts(b, u, now, Accept(b, u, now), room, k)
  {
    var g := b.grants[u.grant];
    RoomIsMade(b.batches, u, g, now);
    room, k := MakeRoom(b.batches, u, g, now).0, MakeRoom(b.batches, u, g, now).1;
  }

  lemma AppendToGrant(grant: Grant, g: nat, events: seq<Event>, e: Event, sessions: nat)
    requires GrantOk(grant, g, events, sessions) && e.status == EventReserved
    requires e.usage.grant == g ==> grant.status == Active && e.usage.amount <= grant.totalLimit - grant.spent - grant.reserved
    ensures GrantOk(if e.usage.grant == g then grant.(reserved := grant.reserved + e.usage.amount) else grant, g,
                    events + [e], sessions)
  {
    TallyAppend(events, e, OpenOf(g));
    TallyAppend(events, e, SettledOf(g));
  }

  lemma AcceptGrants(b: Books, u: Usage, now: int, m: Books, room: seq<Batch>, k: nat)
    requires Accepts(b, u, now, m, room, k)
    ensures GrantsOk(m)
  {
    forall g | 0 <= g < |m.grants| ensures GrantOk(m.grants[g], g, m.events, |m.sessions|) {
      AppendToGrant(b.grants[g], g, b.events, Event(u, k, EventReserved, now, None), |b.sessions|);
    }
  }

  /** A grant and its session reserve the same amount more. */
  lemma ReserveOnSession(s: Session, i: nat, grants: seq<Grant>, g: nat, amount: nat)
    requires SessionOk(s, i, grants) && g < |grants|
    requires grants[g].session == i ==> s.spent + s.reserved + amount <= s.limit && s.reserved + amount <= MAX_SAFE
    ensures SessionOk(if grants[g].session == i then s.(reserved := s.reserved + amount) else s, i,
                      grants[g := grants[g].(reserved := grants[g].reserved + amount)])
  {
    var grant := grants[g].(reserved := grants[g].reserved + amount);
    TallyUpdate(grants, g, grant, ReservedOn(i));
    TallyUpdate(grants, g, grant, SpentOn(i));
  }

  lemma AcceptSessions(b: Books, u: Usage, now: int, m: Books, room: seq<Batch>, k: nat)
    requires Accepts(b, u, now, m, room, k)
    ensures SessionsOk(m)
  {
    forall i | 0 <= i < |m.sessions| ensures SessionOk(m.sessions[i], i, m.grants) {
      ReserveOnSession(b.sessions[i], i, b.grants, u.grant, u.amount);
    }
  }

  lemma OtherBatch(batch: Batch, later: Batch, k: nat, grants: seq<Grant>, laterGrants: seq<Grant>, events: seq<Event>, e: Event, now: int)
    requires BatchOk(batch, k, grants, events) && e.batch != k
    requires later == batch || (batch.accepting && later == Close(batch, now))
    requires |laterGrants| == |grants| && SameLimits(grants[batch.grant], laterGrants[batch.grant])
    ensures BatchOk(later, k, laterGrants, events + [e])
  {
    TallyAppend(events, e, AmountIn(k));
    TallyAppend(events, e, OneIn(k));
  }

  lemma JoinBatch(batch: Batch, k: nat, grants: seq<Grant>, laterGrants: seq<Grant>, events: seq<Event>, e: Event, now: int)
    requires BatchOk(batch, k, grants, events) && batch.accepting && e.batch == k
    requires e.usage.amount < grants[batch.grant].threshold && !MustClose(batch, grants[batch.grant], e.usage.amount)
    requires |laterGrants| == |grants| && SameLimits(grants[batch.grant], laterGrants[batch.grant])
    ensures BatchOk(AddTo(batch, grants[batch.grant], e.usage.amount, now), k, laterGrants, events + [e])
  {
    TallyAppend(events, e, AmountIn(k));
    TallyAppend(events, e, OneIn(k));
  }

  lemma FirstInBatch(u: Usage, k: nat, grants: seq<Grant>, laterGrants: seq<Grant>, events: seq<Event>, e: Event, now: int)
    requires u.grant < |grants| && LimitsOk(grants[u.grant]) && 0 < u.amount <= grants[u.grant].maxPerEvent
    requires e.usage == u && e.batch == k && forall j :: 0 <= j < |events| ==> events[j].batch != k
    requires |laterGrants| == |grants| && SameLimits(grants[u.grant], laterGrants[u.grant])
    ensures BatchOk(AddTo(NewBatch(u, grants[u.grant], now), grants[u.grant], u.amount, now), k, laterGrants, events + [e])
  {
    TallyZero(events, AmountIn(k));
    TallyZero(events, OneIn(k));
    TallyAppend(events, e, AmountIn(k));
    TallyAppend(events, e, OneIn(k));
  }

  lemma AcceptBatches(b: Books, u: Usage, now: int, m: Books, room: seq<Batch>, k: nat)
    requires Accepts(b, u, now, m, room, k)
    ensures BatchesOk(m)
  {
    var e := Event(u, k, EventReserved, now, None);
    forall j | 0 <= j < |m.batches| ensures BatchOk(m.batches[j], j, m.grants, m.events) {
      if j != k {
        OtherBatch(b.batches[j], m.batches[j], j, b.grants, m.grants, b.events, e, now);
      } else if k < |b.batches| {
        JoinBatch(b.batches[k], k, b.grants, m.grants, b.events, e, now);
      } else {
        AcceptFirst(b, u, now, m, room, k);
      }
    }
  }

  lemma AcceptFirst(b: Books, u: Usage, now: int, m: Books, room: seq<Batch>, k: nat)
    requires Accepts(b, u, now, m, room, k) && k == |b.batches|
    ensures BatchOk(m.batches[k], k, m.grants, m.events)
  {
    forall j | 0 <= j < |b.events| ensures b.events[j].batch != k {
      assert EventOk(b.events[j], b.batches);
    }
    assert GrantOk(b.grants[u.grant], u.grant, b.events, |b.sessions|);
    FirstInBatch(u, k, b.grants, m.grants, b.events, Event(u, k, EventReserved, now, None), now);
  }

  lemma AcceptOneAccepting(b: Books, u: Usage, now: int, m: Books, room: seq<Batch>, k: nat)
    requires Accepts(b, u, now, m, room, k)
    ensures OneAccepting(m.batches)
  {}

  /** The batches an accepted event leaves keep their grant, and none of them ends or comes back. */
  lemma AcceptStatuses(b: Books, u: Usage, now: int, m: Books, room: seq<Batch>, k: nat)
    requires Accepts(b, u, now, m, room, k)
    ensures |m.batches| >= |b.batches| && k < |m.batches| && m.batches[k].grant == u.grant && !IsTerminal(m.batches[k].status)
    ensures forall j :: 0 <= j < |b.batches| ==>
              && m.batches[j].grant == b.batches[j].grant
              && (m.batches[j].status == b.batches[j].status
                  || (!IsTerminal(m.batches[j].status) && !IsTerminal(b.batches[j].status)))
  {
    forall j | 0 <= j < |b.batches| ensures b.batches[j].accepting ==> b.batches[j].status == Collecting {
      assert BatchOk(b.batches[j], j, b.grants, b.events);
    }
  }

  lemma AcceptKeys(b: Books, u: Usage, now: int, m: Books, room: seq<Batch>, k: nat)
    requires Accepts(b, u, now, m, room, k)
    ensures UniqueKeys(m.events)
  {}

  lemma AcceptEvents(b: Books, u: Usage, now: int, m: Books, room: seq<Batch>, k: nat)
    requires Accepts(b, u, now, m, room, k)
    ensures EventsOk(m) && UniqueKeys(m.events)
  {
    AcceptStatuses(b, u, now, m, room, k);
    AcceptKeys(b, u, now, m, room, k);
    forall j | 0 <= j < |m.events| ensures EventOk(m.events[j], m.batches) {
      assert j < |b.events| ==> EventOk(b.events[j], b.batches);
    }
  }

  lemma CountInWindow(b: Books, m: Books, e: Event, start: int, g: nat, w: int)
    requires WindowsOk(b) && g < |b.grants| == |m.grants| && e.usage.grant < |b.grants|
    requires b.grants[e.usage.grant].windowSeconds >= 1
    requires start == WindowStart(e.acceptedAt, b.grants[e.usage.grant].windowSeconds)
    requires Admitted(b, e.usage.grant, start) < b.grants[e.usage.grant].rateCount
    requires m.events == b.events + [e] && SameLimits(b.grants[g], m.grants[g])
    requires m.windows == b.windows[(e.usage.grant, start) := Admitted(b, e.usage.grant, start) + 1]
    ensures WindowOk(m, g, w)
  {
    assert WindowOk(b, g, w);
    TallyAppend(b.events, e, AdmittedIn(g, b.grants[g].windowSeconds, w));
  }

  lemma AcceptWindows(b: Books, u: Usage, now: int, m: Books, room: seq<Batch>, k: nat)
    requires Accepts(b, u, now, m, room, k)
    ensures WindowsOk(m)
  {
    var e := Event(u, k, EventReserved, now, None);
    forall g, w | 0 <= g < |m.grants| ensures WindowOk(m, g, w) {
      CountInWindow(b, m, e, WindowStart(now, b.grants[u.grant].windowSeconds), g, w);
    }
  }

  lemma AcceptKeeps(b: Books, owner: nat, u: Usage, now: int)
    requires Acceptable(b, owner, u, now)
    ensures Inv(Accept(b, u, now))
  {
    var room, k := AcceptRows(b, owner, u, now);
    var m := Accept(b, u, now);
    AcceptGrants(b, u, now, m, room, k);
    AcceptSessions(b, u, now, m, room, k);
    AcceptBatches(b, u, now, m, room, k);
    AcceptOneAccepting(b, u, now, m, room, k);
    AcceptEvents(b, u, now, m, room, k);
    AcceptWindows(b, u, now, m, room, k);
  }

  // Ending a batch.

  function OneOpenIn(k: nat): Event -> nat {
    (e: Event) => if e.batch == k && IsOpen(e) then 1 else 0
  }

  /** What a batch holds open: everything while it is live, nothing once it ended. */
  lemma OpenInBatch(b: Books, k: nat)
    requires Inv(b) && k < |b.batches|
    ensures Tally(b.events, OpenIn(k)) == if IsTerminal(b.batches[k].status) then 0 else b.batches[k].total
    ensures Tally(b.events, OneOpenIn(k)) == if IsTerminal(b.batches[k].status) then 0 else b.batches[k].count
  {
    assert BatchOk(b.batches[k], k, b.grants, b.events);
    forall j | 0 <= j < |b.events|
      ensures b.events[j].batch == k ==> (IsOpen(b.events[j]) <==> !IsTerminal(b.batches[k].status))
    {
      assert EventOk(b.events[j], b.batches);
    }
    if IsTerminal(b.batches[k].status) {
      TallyZero(b.events, OpenIn(k));
      TallyZero(b.events, OneOpenIn(k));
    } else {
      TallyEqual(b.events, OpenIn(k), b.events, AmountIn(k));
      TallyEqual(b.events, OneOpenIn(k), b.events, OneIn(k));
    }
  }

  /** What a batch holds open is part of what its grant and its session hold reserved. */
  lemma OpenIsReserved(b: Books, k: nat)
    requires Inv(b) && k < |b.batches|
    ensures var batch, total := b.batches[k], Tally(b.events, OpenIn(k));
            && batch.grant < |b.grants| && batch.session < |b.sessions| && batch.session == b.grants[batch.grant].session
            && total <= b.grants[batch.grant].reserved <= b.sessions[batch.session].reserved <= MAX_SAFE
            && b.grants[batch.grant].spent <= b.sessions[batch.session].spent
  {
    var batch := b.batches[k];
    assert BatchOk(batch, k, b.grants, b.events);
    var g, i := batch.grant, batch.session;
    assert GrantOk(b.grants[g], g, b.events, |b.sessions|);
    assert SessionOk(b.sessions[i], i, b.grants);
    forall j | 0 <= j < |b.events| ensures OpenIn(k)(b.events[j]) <= OpenOf(g)(b.events[j]) {
      assert EventOk(b.events[j], b.batches);
    }
    TallyAtMost(b.events, OpenIn(k), b.events, OpenOf(g));
    TallyMember(b.grants, g, ReservedOn(i));
    TallyMember(b.grants, g, SpentOn(i));
  }

  /** The events after batch `k` ended with the given status: only its open events changed. */
  ghost predicate Ended(events: seq<Event>, later: seq<Event>, k: nat, status: EventStatus) {
    && Rewritten(events, later)
    && forall i :: 0 <= i < |events| ==>
         if events[i].batch == k && IsOpen(events[i]) then later[i].status == status else later[i] == events[i]
  }

  lemma EndedEvent(e: Event, later: Event, k: nat, status: EventStatus, g: nat, owner: nat)
    requires SameCore(e, later) && (e.batch == k ==> e.usage.grant == owner)
    requires if e.batch == k && IsOpen(e) then later.status == status else later == e
    requires status == EventSettled || status == EventFailed || status == EventReleased
    ensures OpenOf(g)(e) == OpenOf(g)(later) + if g == owner then OpenIn(k)(e) else 0
    ensures SettledOf(g)(later) == SettledOf(g)(e) + if g == owner && status == EventSettled then OpenIn(k)(e) else 0
  {}

  /** Ending a batch moves what it held open out of its grant's open events, and nothing else. */
  lemma EndedTallies(b: Books, later: seq<Event>, k: nat, status: EventStatus, g: nat)
    requires Inv(b) && k < |b.batches| && Ended(b.events, later, k, status)
    requires status == EventSettled || status == EventFailed || status == EventReleased
    ensures var total := if g == b.batches[k].grant then Tally(b.events, OpenIn(k)) else 0;
            && Tally(b.events, OpenOf(g)) == Tally(later, OpenOf(g)) + total
            && Tally(later, SettledOf(g)) == Tally(b.events, SettledOf(g)) + if status == EventSettled then total else 0
  {
    var owner := b.batches[k].grant;
    forall i | 0 <= i < |later|
      ensures OpenOf(g)(b.events[i]) == OpenOf(g)(later[i]) + if g == owner then OpenIn(k)(b.events[i]) else 0
      ensures SettledOf(g)(later[i])
              == SettledOf(g)(b.events[i]) + if g == owner && status == EventSettled then OpenIn(k)(b.events[i]) else 0
    {
      assert EventOk(b.events[i], b.batches);
      EndedEvent(b.events[i], later[i], k, status, g, owner);
    }
    MovedTallies(b.events, later, k, g, g == owner, status == EventSettled);
  }

  lemma MovedTallies(events: seq<Event>, later: seq<Event>, k: nat, g: nat, own: bool, settled: bool)
    requires |later| == |events|
    requires forall i :: 0 <= i < |later| ==>
               OpenOf(g)(events[i]) == OpenOf(g)(later[i]) + if own then OpenIn(k)(events[i]) else 0
    requires forall i :: 0 <= i < |later| ==>
               SettledOf(g)(later[i]) == SettledOf(g)(events[i]) + if own && settled then OpenIn(k)(events[i]) else 0
    ensures Tally(events, OpenOf(g)) == Tally(later, OpenOf(g)) + if own then Tally(events, OpenIn(k)) else 0
    ensures Tally(later, SettledOf(g)) == Tally(events, SettledOf(g)) + if own && settled then Tally(events, OpenIn(k)) else 0
  {
    if own {
      TallySplit(events, OpenOf(g), later, OpenOf(g), events, OpenIn(k));
    } else {
      TallyEqual(events, OpenOf(g), later, OpenOf(g));
    }
    if own && settled {
      TallySplit(later, SettledOf(g), events, SettledOf(g), events, OpenIn(k));
    } else {
      TallyEqual(later, SettledOf(g), events, SettledOf(g));
    }
  }

  /** The new rows of a batch that ends, of its grant and of its session. */
  ghost predicate EndsWith(b: Books, k: nat, status: EventStatus, batch: Batch, g: Grant, s: Session) {
    && k < |b.batches| && b.batches[k].grant < |b.grants| && b.batches[k].session < |b.sessions|
    && var was, grant, session := b.batches[k], b.grants[b.batches[k].grant], b.sessions[b.batches[k].session];
       var total := Tally(b.events, OpenIn(k));
       var settled := if status == EventSettled then total else 0;
       && !IsTerminal(was.status) && IsTerminal(batch.status) && Fits(batch.status, status)
       && !batch.accepting && batch.lease == None && batch.submitted == was.submitted
       && batch.grant == was.grant && batch.session == was.session && batch.total == was.total && batch.count == was.count
       && SameLimits(grant, g) && g.reserved + total == grant.reserved && g.spent == grant.spent + settled
       && (g.status == grant.status || (grant.status == Active && g.status == Depleted && g.spent >= g.totalLimit))
       && s.limit == session.limit && s.reserved + total == session.reserved && s.spent == session.spent + settled
  }

  function EndBooks(b: Books, k: nat, batch: Batch, g: Grant, s: Session, events: seq<Event>, funds: Funding.Ledger): Books
    requires k < |b.batches| && b.batches[k].grant < |b.grants| && b.batches[k].session < |b.sessions|
  {
    b.(sessions := b.sessions[b.batches[k].session := s], grants := b.grants[b.batches[k].grant := g],
       batches := b.batches[k := batch], events := events, funds := funds)
  }

  lemma EndGrants(b: Books, k: nat, status: EventStatus, batch: Batch, g: Grant, s: Session, events: seq<Event>, funds: Funding.Ledger)
    requires Inv(b) && EndsWith(b, k, status, batch, g, s) && Ended(b.events, events, k, status)
    ensures GrantsOk(EndBooks(b, k, batch, g, s, events, funds))
  {
    var m := EndBooks(b, k, batch, g, s, events, funds);
    forall j | 0 <= j < |m.grants| ensures GrantOk(m.grants[j], j, m.events, |m.sessions|) {
      assert GrantOk(b.grants[j], j, b.events, |b.sessions|);
      EndedTallies(b, events, k, status, j);
    }
  }

  lemma EndSessions(b: Books, k: nat, status: EventStatus, batch: Batch, g: Grant, s: Session, events: seq<Event>, funds: Funding.Ledger)
    requires Inv(b) && EndsWith(b, k, status, batch, g, s)
    ensures SessionsOk(EndBooks(b, k, batch, g, s, events, funds))
  {
    var m := EndBooks(b, k, batch, g, s, events, funds);
    OpenIsReserved(b, k);
    forall i | 0 <= i < |m.sessions| ensures SessionOk(m.sessions[i], i, m.grants) {
      assert SessionOk(b.sessions[i], i, b.grants);
      TallyUpdate(b.grants, b.batches[k].grant, g, ReservedOn(i));
      TallyUpdate(b.grants, b.batches[k].grant, g, SpentOn(i));
    }
  }

  lemma EndBatches(b: Books, k: nat, status: EventStatus, batch: Batch, g: Grant, s: Session, events: seq<Event>, funds: Funding.Ledger)
    requires Inv(b) && EndsWith(b, k, status, batch, g, s) && Ended(b.events, events, k, status)
    ensures BatchesOk(EndBooks(b, k, batch, g, s, events, funds))
  {
    var m := EndBooks(b, k, batch, g, s, events, funds);
    forall j | 0 <= j < |m.batches| ensures BatchOk(m.batches[j], j, m.grants, m.events) {
      assert BatchOk(b.batches[j], j, b.grants, b.events);
      RewrittenTallies(b.events, events, j);
    }
  }

  lemma EndEvents(b: Books, k: nat, status: EventStatus, batch: Batch, events: seq<Event>)
    requires Inv(b) && k < |b.batches| && Ended(b.events, events, k, status)
    requires !IsTerminal(b.batches[k].status) && Fits(batch.status, status) && batch.grant == b.batches[k].grant
    requires forall j :: 0 <= j < |events| && b.events[j].batch == k ==> ReceiptOk(events[j])
    ensures forall j :: 0 <= j < |events| ==> EventOk(events[j], b.batches[k := batch])
  {
    forall j | 0 <= j < |events| ensures EventOk(events[j], b.batches[k := batch]) {
      assert EventOk(b.events[j], b.batches);
      assert SameCore(b.events[j], events[j]);
    }
  }

  /** A settled event has the receipt of its own amount and batch; no other event has one. */
  predicate ReceiptOk(e: Event) {
    && (e.receipt.Some? <==> e.status == EventSettled)
    && (e.receipt.Some? ==> e.receipt.value.settlement == e.batch && e.receipt.value.amount == e.usage.amount)
  }

  lemma EndKeeps(b: Books, k: nat, status: EventStatus, batch: Batch, g: Grant, s: Session, events: seq<Event>, funds: Funding.Ledger)
    requires Inv(b) && EndsWith(b, k, status, batch, g, s) && Ended(b.events, events, k, status)
    requires forall j :: 0 <= j < |events| && b.events[j].batch == k ==> ReceiptOk(events[j])
    requires FundingInvariant.Inv(funds)
    ensures Inv(EndBooks(b, k, batch, g, s, events, funds))
  {
    var m := EndBooks(b, k, batch, g, s, events, funds);
    EndGrants(b, k, status, batch, g, s, events, funds);
    EndSessions(b, k, status, batch, g, s, events, funds);
    EndBatches(b, k, status, batch, g, s, events, funds);
    EndEvents(b, k, status, batch, events);
    RewrittenWindows(b, m);
    RewrittenKeys(b.events, events);
  }

  lemma ReleaseRows(b: Books, k: nat, failed: bool, now: int) returns (batch: Batch, g: Grant, s: Session, events: seq<Event>)
    requires Inv(b) && k < |b.batches| && !IsTerminal(b.batches[k].status) && Release(b, k, failed, now).Ok?
    ensures EndsWith(b, k, if failed then EventFailed else EventReleased, batch, g, s)
    ensures events == Conclude(b.events, k, if failed then EventFailed else EventReleased)
    ensures Release(b, k, failed, now).value == EndBooks(b, k, batch, g, s, events, b.funds)
  {
    var m := Release(b, k, failed, now).value;
    OpenIsReserved(b, k);
    batch, g, s := m.batches[k], m.grants[b.batches[k].grant], m.sessions[b.batches[k].session];
    events := m.events;
  }

  lemma ReleasedEvents(b: Books, k: nat, status: EventStatus)
    requires Inv(b) && k < |b.batches| && !IsTerminal(b.batches[k].status)
    requires status == EventFailed || status == EventReleased
    ensures var events := Conclude(b.events, k, status);
            && Ended(b.events, events, k, status)
            && forall j :: 0 <= j < |events| && b.events[j].batch == k ==> ReceiptOk(events[j])
  {
    var events := Conclude(b.events, k, status);
    forall j | 0 <= j < |events| && b.events[j].batch == k ensures ReceiptOk(events[j]) {
      assert EventOk(b.events[j], b.batches);
    }
  }

  lemma ReleaseKeeps(b: Books, k: nat, failed: bool, now: int)
    requires Inv(b) && k < |b.batches| && !IsTerminal(b.batches[k].status) && Release(b, k, failed, now).Ok?
    ensures Inv(Release(b, k, failed, now).value)
  {
    var batch, g, s, events := ReleaseRows(b, k, failed, now);
    var status := if failed then EventFailed else EventReleased;
    ReleasedEvents(b, k, status);
    EndKeeps(b, k, status, batch, g, s, events, b.funds);
  }

  // Finalizing.

  /** A listing of a batch adds up to what the batch holds open. */
  lemma ListingTotals(events: seq<Event>, k: nat, listing: seq<nat>)
    requires IsListing(events, k, listing)
    ensures Tally(Usages(At(events, listing)), Self()) == Tally(events, OpenIn(k))
    ensures |listing| == Tally(events, OneOpenIn(k))
  {
    var rows := At(events, listing);
    TallyOfListing(events, listing, OpenIn(k));
    TallyOfListing(events, listing, OneOpenIn(k));
    TallyEqual(Usages(rows), Self(), rows, OpenIn(k));
    TallyConstant(rows, OneOpenIn(k), 1);
  }

  /** Issuing gives every listed event the receipt of its own share, and touches nothing else. */
  ghost predicate Issued(before: seq<Event>, later: seq<Event>, k: nat, listing: seq<nat>, shares: seq<nat>, known: bool, proof: nat, now: int) {
    && |shares| == |listing| && |later| == |before|
    && (forall n :: 0 <= n < |listing| ==> listing[n] < |before|)
    && (forall i :: 0 <= i < |before| ==> later[i] == before[i].(receipt := later[i].receipt))
    && (forall i :: 0 <= i < |before| && i !in listing ==> later[i] == before[i])
    && (forall n :: 0 <= n < |listing| ==>
          later[listing[n]].receipt == Some(Receipt(k, before[listing[n]].usage.amount, shares[n], known, proof, now)))
  }

  lemma {:induction false} IssueEffect(before: seq<Event>, k: nat, listing: seq<nat>, shares: seq<nat>, known: bool, proof: nat, now: int)
    requires |shares| == |listing| && forall i :: 0 <= i < |listing| ==> listing[i] < |before|
    requires Distinct(listing)
    requires forall i :: 0 <= i < |listing| ==> before[listing[i]].receipt.None?
    ensures IssueReceipts(before, k, listing, shares, known, proof, now).Ok?
    ensures Issued(before, IssueReceipts(before, k, listing, shares, known, proof, now).value, k, listing, shares, known, proof, now)
  {
    if listing != [] {
      var n := |listing| - 1;
      IssueEffect(before, k, listing[..n], shares[..n], known, proof, now);
      var middle := IssueReceipts(before, k, listing[..n], shares[..n], known, proof, now).value;
      IssueOneMore(before, middle, k, listing, shares, known, proof, now);
    }
  }

  lemma IssueOneMore(before: seq<Event>, middle: seq<Event>, k: nat, listing: seq<nat>, shares: seq<nat>, known: bool, proof: nat, now: int)
    requires |shares| == |listing| > 0 && Distinct(listing)
    requires forall i :: 0 <= i < |listing| ==> listing[i] < |before|
    requires Issued(before, middle, k, listing[..|listing| - 1], shares[..|listing| - 1], known, proof, now)
    ensures var j := listing[|listing| - 1];
            && middle[j] == before[j]
            && Issued(before, middle[j := middle[j].(receipt := Some(Receipt(k, before[j].usage.amount, shares[|listing| - 1], known, proof, now)))],
                      k, listing, shares, known, proof, now)
  {
    var n := |listing| - 1;
    assert listing[n] !in listing[..n];
    forall i | 0 <= i < |before| && i !in listing ensures i !in listing[..n] {}
  }

  lemma SettledIssues(b: Books, k: nat, listing: seq<nat>, shares: seq<nat>, known: bool, proof: nat, now: int)
    requires EventsOk(b) && IsListing(b.events, k, listing) && |shares| == |listing|
    ensures var concluded := Conclude(b.events, k, EventSettled);
            var r := IssueReceipts(concluded, k, listing, shares, known, proof, now);
            r.Ok? && Issued(concluded, r.value, k, listing, shares, known, proof, now)
  {
    var concluded := Conclude(b.events, k, EventSettled);
    forall i | 0 <= i < |listing| ensures concluded[listing[i]].receipt.None? {
      assert EventOk(b.events[listing[i]], b.batches);
    }
    IssueEffect(concluded, k, listing, shares, known, proof, now);
  }

  /** An event of a live batch is listed, and carries the receipt of its place in the listing. */
  lemma SettledReceipt(b: Books, k: nat, listing: seq<nat>, shares: seq<nat>, known: bool, proof: nat, now: int,
                       later: seq<Event>, j: nat)
    requires EventsOk(b) && k < |b.batches| && !IsTerminal(b.batches[k].status) && IsListing(b.events, k, listing)
    requires Issued(Conclude(b.events, k, EventSettled), later, k, listing, shares, known, proof, now)
    requires j < |b.events| && b.events[j].batch == k
    ensures ReceiptOk(later[j])
  {
    var concluded := Conclude(b.events, k, EventSettled);
    assert EventOk(b.events[j], b.batches);
    assert j in listing;
    var n :| 0 <= n < |listing| && listing[n] == j;
    assert later[listing[n]].receipt == Some(Receipt(k, concluded[listing[n]].usage.amount, shares[n], known, proof, now));
  }

  /** Concluding a batch as settled and issuing its receipts ends it, each event with its own receipt. */
  lemma SettledEnds(b: Books, k: nat, listing: seq<nat>, shares: seq<nat>, known: bool, proof: nat, now: int)
    requires Inv(b) && k < |b.batches| && IsListing(b.events, k, listing) && |shares| == |listing|
    ensures var r := IssueReceipts(Conclude(b.events, k, EventSettled), k, listing, shares, known, proof, now);
            && r.Ok? && Ended(b.events, r.value, k, EventSettled)
            && Issued(Conclude(b.events, k, EventSettled), r.value, k, listing, shares, known, proof, now)
            && (!IsTerminal(b.batches[k].status) ==>
                  forall j :: 0 <= j < |r.value| && b.events[j].batch == k ==> ReceiptOk(r.value[j]))
  {
    SettledIssues(b, k, listing, shares, known, proof, now);
    var later := IssueReceipts(Conclude(b.events, k, EventSettled), k, listing, shares, known, proof, now).value;
    if !IsTerminal(b.batches[k].status) {
      forall j | 0 <= j < |later| && b.events[j].batch == k ensures ReceiptOk(later[j]) {
        SettledReceipt(b, k, listing, shares, known, proof, now, later, j);
      }
    }
  }

  lemma SettleRows(b: Books, k: nat, total: nat, now: int)
    requires Inv(b) && k < |b.batches| && !IsTerminal(b.batches[k].status) && total == Tally(b.events, OpenIn(k))
    ensures var batch := b.batches[k];
            && batch.grant < |b.grants| && batch.session < |b.sessions|
            && total <= b.grants[batch.grant].reserved && total <= b.sessions[batch.session].reserved
            && EndsWith(b, k, EventSettled, End(batch, Succeeded, now), SettleGrant(b.grants[batch.grant], total),
                        SettleSession(b.sessions[batch.session], total))
  {
    OpenIsReserved(b, k);
  }

  /** A batch that finalizing changed was live, and its rows are the settled ones. */
  lemma FinalizeRows(b: Books, k: nat, listing: seq<nat>, fee: Fee, proof: nat, now: int) returns (shares: seq<nat>)
    requires Inv(b) && IsListing(b.events, k, listing) && k < |b.batches| && b.batches[k].status != Succeeded
    requires Finalize(b, k, listing, fee, proof, now).Ok?
    ensures !IsTerminal(b.batches[k].status) && |shares| == |listing|
    ensures var batch, total := b.batches[k], Tally(b.events, OpenIn(k));
            var spent := Funding.Spend(b.funds, batch.session, total, now);
            var issued := IssueReceipts(Conclude(b.events, k, EventSettled), k, listing, shares, fee.Known?, proof, now);
            && spent.Ok? && issued.Ok? && FeeShares(fee, Usages(At(b.events, listing))) == Ok(shares)
            && batch.grant < |b.grants| && batch.session < |b.sessions|
            && total <= b.grants[batch.grant].reserved && total <= b.sessions[batch.session].reserved
            && Finalize(b, k, listing, fee, proof, now).value
               == EndBooks(b, k, End(batch, Succeeded, now), SettleGrant(b.grants[batch.grant], total),
                           SettleSession(b.sessions[batch.session], total), issued.value, spent.value)
  {
    ListingTotals(b.events, k, listing);
    OpenInBatch(b, k);
    assert BatchOk(b.batches[k], k, b.grants, b.events);
    shares := FeeShares(fee, Usages(At(b.events, listing))).value;
  }

  lemma FinalizeKeeps(b: Books, k: nat, listing: seq<nat>, fee: Fee, proof: nat, now: int)
    requires Inv(b) && IsListing(b.events, k, listing) && k < |b.batches| && b.batches[k].status != Succeeded
    requires Finalize(b, k, listing, fee, proof, now).Ok?
    ensures Inv(Finalize(b, k, listing, fee, proof, now).value)
  {
    var batch, total := b.batches[k], Tally(b.events, OpenIn(k));
    var shares := FinalizeRows(b, k, listing, fee, proof, now);
    SettleRows(b, k, total, now);
    SettledEnds(b, k, listing, shares, fee.Known?, proof, now);
    FundingInvariant.SpendKeeps(b.funds, batch.session, total, now);
    EndKeeps(b, k, EventSettled, End(batch, Succeeded, now), SettleGrant(b.grants[batch.grant], total),
             SettleSession(b.sessions[batch.session], total),
             IssueReceipts(Conclude(b.events, k, EventSettled), k, listing, shares, fee.Known?, proof, now).value,
             Funding.Spend(b.funds, batch.session, total, now).value);
  }

  // Every step.

  lemma ClaimKeeps(b: Books, k: nat, now: int)
    requires Inv(b)
    ensures Inv(Claim(b, k, now))
  {
    if k < |b.batches| && Claimable(b.batches[k], now) {
      assert BatchOk(b.batches[k], k, b.grants, b.events);
      var m := Claim(b, k, now);
      BatchUpdateKeeps(b, k, m.batches[k], m.nextLease);
      assert m == b.(batches := b.batches[k := m.batches[k]], nextLease := m.nextLease);
    }
  }

  lemma MarkSubmittedKeeps(b: Books, k: nat, lease: nat)
    requires Inv(b)
    ensures Inv(MarkSubmitted(b, k, lease))
  {
    if k < |b.batches| {
      assert BatchOk(b.batches[k], k, b.grants, b.events);
      BatchUpdateKeeps(b, k, b.batches[k].(submitted := true), b.nextLease);
    }
  }

  lemma RetryKeeps(b: Books, k: nat, lease: nat, attempts: nat, submitted: bool, now: int)
    requires Inv(b)
    ensures Inv(Retry(b, k, lease, attempts, submitted, now))
  {
    if k < |b.batches| && b.batches[k].lease == Some(lease) {
      assert BatchOk(b.batches[k], k, b.grants, b.events);
      var m := Retry(b, k, lease, attempts, submitted, now);
      BatchUpdateKeeps(b, k, m.batches[k], b.nextLease);
      assert m == b.(batches := b.batches[k := m.batches[k]]);
    }
  }

  lemma AdministerKeeps(b: Books, i: nat, status: SessionStatus, extra: nat, now: int)
    requires Inv(b) && i < |b.sessions|
    ensures Inv(Step(b, Administer(i, status, extra), now))
  {
    SessionUpdateKeeps(b, i, b.sessions[i].(status := status, limit := b.sessions[i].limit + extra));
  }

  lemma OwnerStepKeeps(b: Books, op: Op, now: int)
    requires Inv(b) && (op.AddSession? || op.Administer? || op.AddGrant? || op.DoRevoke?)
    ensures Inv(Step(b, op, now))
  {
    match op
    case AddSession(s) => AddSessionKeeps(b, s.(spent := 0, reserved := 0));
    case Administer(i, status, extra) =>
      if i < |b.sessions| {
        AdministerKeeps(b, i, status, extra, now);
      }
    case AddGrant(g, allowed) =>
      if CreateGrant(b, g, allowed, now).Ok? {
        CreateGrantKeeps(b, g, allowed, now);
      }
    case DoRevoke(g, owner, app) =>
      if g < |b.grants| {
        RevokeKeeps(b, g);
      }
  }

  lemma CreateGrantKeeps(b: Books, g: Grant, allowed: bool, now: int)
    requires Inv(b) && CreateGrant(b, g, allowed, now).Ok?
    ensures Inv(CreateGrant(b, g, allowed, now).value)
  {
    AddGrantKeeps(b, g.(status := Active, reserved := 0, spent := 0));
  }

  lemma SubmitKeeps(b: Books, owner: nat, u: Usage, now: int)
    requires Inv(b) && Submit(b, owner, u, now).Ok?
    ensures Inv(Submit(b, owner, u, now).value.0)
  {
    if FindEvent(b.events, u.app, u.externalId).None? {
      AcceptKeeps(b, owner, u, now);
    }
  }

  lemma SubmitStepKeeps(b: Books, owner: nat, u: Usage, now: int)
    requires Inv(b)
    ensures Inv(Step(b, DoSubmit(owner, u), now))
  {
    if Submit(b, owner, u, now).Ok? {
      SubmitKeeps(b, owner, u, now);
    }
  }

  lemma ReleaseOfEnded(b: Books, k: nat, failed: bool, now: int)
    requires k >= |b.batches| || IsTerminal(b.batches[k].status)
    ensures Release(b, k, failed, now) == Ok(b)
  {}

  lemma OrUnchangedKeeps(b: Books, r: Result<Books, Rejection>)
    requires Inv(b) && (r.Ok? ==> Inv(r.value))
    ensures Inv(OrUnchanged(b, r))
  {}

  lemma ReleaseStepKeeps(b: Books, k: nat, failed: bool, now: int)
    requires Inv(b)
    ensures Inv(Step(b, DoRelease(k, failed), now))
  {
    var r := Release(b, k, failed, now);
    if k >= |b.batches| || IsTerminal(b.batches[k].status) {
      ReleaseOfEnded(b, k, failed, now);
    } else if r.Ok? {
      ReleaseKeeps(b, k, failed, now);
    }
    OrUnchangedKeeps(b, r);
    assert Step(b, DoRelease(k, failed), now) == OrUnchanged(b, r);
  }

  lemma FinalizeStepKeeps(b: Books, k: nat, listing: seq<nat>, fee: Fee, proof: nat, now: int)
    requires Inv(b)
    ensures Inv(Step(b, DoFinalize(k, listing, fee, proof), now))
  {
    if IsListing(b.events, k, listing) && k < |b.batches| && b.batches[k].status != Succeeded
       && Finalize(b, k, listing, fee, proof, now).Ok?
    {
      FinalizeKeeps(b, k, listing, fee, proof, now);
    }
  }

  lemma FundStepKeeps(b: Books, op: Funding.Op, now: int)
    requires Inv(b)
    ensures Inv(Step(b, Fund(op), now))
  {
    FundingInvariant.StepKeeps(b.funds, op, now);
    FundsKeeps(b, Funding.Step(b.funds, op, now));
  }

  lemma StepKeeps(b: Books, op: Op, now: int)
    requires Inv(b)
    ensures Inv(Step(b, op, now))
  {
    match op
    case DoSubmit(owner, u) => SubmitStepKeeps(b, owner, u, now);
    case DoClaim(k) => ClaimKeeps(b, k, now);
    case DoSettling(k) => SettlingKeeps(b, k);
    case DoMarkSubmitted(k, lease) => MarkSubmittedKeeps(b, k, lease);
    case DoRetry(k, lease, attempts, submitted) => RetryKeeps(b, k, lease, attempts, submitted, now);
    case DoRelease(k, failed) => ReleaseStepKeeps(b, k, failed, now);
    case DoFinalize(k, listing, fee, proof) => FinalizeStepKeeps(b, k, listing, fee, proof, now);
    case Fund(fop) => FundStepKeeps(b, fop, now);
    case _ => OwnerStepKeeps(b, op, now);
  }

  lemma FundsKeeps(b: Books, funds: Funding.Ledger)
    requires Inv(b) && FundingInvariant.Inv(funds)
    ensures Inv(b.(funds := funds))
  {
    RewrittenWindows(b, b.(funds := funds));
  }

  /** The invariant holds after every run. */
  lemma {:induction false} RunKeeps(b: Books, ops: seq<(Op, int)>)
    requires Inv(b)
    ensures Inv(Run(b, ops))
  {
    if ops != [] {
      RunKeeps(b, ops[..|ops| - 1]);
      StepKeeps(Run(b, ops[..|ops| - 1]), ops[|ops| - 1].0, ops[|ops| - 1].1);
    }
  }

  lemma EmptyBooks()
    ensures Inv(EMPTY)
  {
    FundingInvariant.EmptyLedger();
  }

  /** Every reachable ledger satisfies the invariant. */
  lemma Reachable(ops: seq<(Op, int)>)
    ensures Inv(Run(EMPTY, ops))
  {
    EmptyBooks();
    RunKeeps(EMPTY, ops);
  }
}
