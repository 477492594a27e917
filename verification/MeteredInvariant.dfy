/** The metered ledger's invariant: grant, session and batch counters are sums over events, an event's status follows
    its batch's, limits hold, and every rate window counts what it admitted. */
module MeteredInvariant {
  import opened Wrappers
  import opened Money
  import opened Tallies
  import opened Receipts
  import opened Metered
  import Funding
  import FundingInvariant

  function OpenOf(g: nat): Event -> nat {
    (e: Event) => if e.usage.grant == g && IsOpen(e) then e.usage.amount else 0
  }

  function SettledOf(g: nat): Event -> nat {
    (e: Event) => if e.usage.grant == g && e.status == EventSettled then e.usage.amount else 0
  }

  function AmountIn(k: nat): Event -> nat {
    (e: Event) => if e.batch == k then e.usage.amount else 0
  }

  function OneIn(k: nat): Event -> nat {
    (e: Event) => if e.batch == k then 1 else 0
  }

  function AdmittedIn(g: nat, width: nat, start: int): Event -> nat {
    (e: Event) => if e.usage.grant == g && width >= 1 && WindowStart(e.acceptedAt, width) == start then 1 else 0
  }

  function ReservedOn(i: nat): Grant -> nat {
    (g: Grant) => if g.session == i then g.reserved else 0
  }

  function SpentOn(i: nat): Grant -> nat {
    (g: Grant) => if g.session == i then g.spent else 0
  }

  /** A grant's counters are its open and its settled events, within its total; a depleted one holds nothing. */
  ghost predicate GrantOk(grant: Grant, g: nat, events: seq<Event>, sessions: nat) {
    && grant.session < sessions && LimitsOk(grant)
    && grant.reserved == Tally(events, OpenOf(g))
    && grant.spent == Tally(events, SettledOf(g))
    && grant.reserved + grant.spent <= grant.totalLimit
    && (grant.status == Depleted ==> grant.spent == grant.totalLimit)
  }

  /** A session's counters are the sums over its grants, within its limit. */
  ghost predicate SessionOk(session: Session, i: nat, grants: seq<Grant>) {
    && session.reserved == Tally(grants, ReservedOn(i))
    && session.spent == Tally(grants, SpentOn(i))
    && session.reserved + session.spent <= session.limit
    && session.reserved <= MAX_SAFE
  }

  /** A batch's totals are its events, within the grant's batch limits; it accepts exactly while it collects, and
      a collecting batch is strictly below every bound that would have closed it. */
  ghost predicate BatchOk(batch: Batch, k: nat, grants: seq<Grant>, events: seq<Event>) {
    && batch.grant < |grants|
    && var g := grants[batch.grant];
       && batch.session == g.session
       && batch.total == Tally(events, AmountIn(k)) && batch.count == Tally(events, OneIn(k))
       && 1 <= batch.total <= g.maxBatch && 1 <= batch.count <= g.maxEvents
       && (batch.accepting <==> batch.status == Collecting)
       && (batch.accepting ==> batch.total < g.threshold && batch.count < g.maxEvents && g.delay > 0)
       && (batch.lease.Some? <==> batch.status == Processing)
  }

  /** The statuses an event can have while its batch has the given one. */
  predicate Fits(s: BatchStatus, e: EventStatus) {
    match s
    case Succeeded => e == EventSettled
    case Failed => e == EventFailed
    case Released => e == EventReleased
    case _ => e == EventReserved || e == EventSettling
  }

  ghost predicate EventOk(e: Event, batches: seq<Batch>) {
    && e.batch < |batches| && e.usage.grant == batches[e.batch].grant && e.usage.amount > 0
    && Fits(batches[e.batch].status, e.status)
    && (e.receipt.Some? <==> e.status == EventSettled)
    && (e.receipt.Some? ==> e.receipt.value.settlement == e.batch && e.receipt.value.amount == e.usage.amount)
  }

  ghost predicate OneAccepting(batches: seq<Batch>) {
    forall j, k :: 0 <= j < k < |batches| && batches[j].accepting && batches[k].accepting ==> batches[j].grant != batches[k].grant
  }

  ghost predicate UniqueKeys(events: seq<Event>) {
    forall j, k :: 0 <= j < k < |events| ==>
                     !(events[j].usage.app == events[k].usage.app && events[j].usage.externalId == events[k].usage.externalId)
  }

  /** The window counter is the number of events admitted in the window, and within the rate. */
  ghost predicate WindowOk(b: Books, g: nat, start: int)
    requires g < |b.grants|
  {
    && Admitted(b, g, start) == Tally(b.events, AdmittedIn(g, b.grants[g].windowSeconds, start))
    && Admitted(b, g, start) <= b.grants[g].rateCount
  }

  ghost predicate GrantsOk(b: Books) {
    forall g :: 0 <= g < |b.grants| ==> GrantOk(b.grants[g], g, b.events, |b.sessions|)
  }

  ghost predicate SessionsOk(b: Books) {
    forall i :: 0 <= i < |b.sessions| ==> SessionOk(b.sessions[i], i, b.grants)
  }

  ghost predicate BatchesOk(b: Books) {
    forall k :: 0 <= k < |b.batches| ==> BatchOk(b.batches[k], k, b.grants, b.events)
  }

  ghost predicate EventsOk(b: Books) {
    forall j :: 0 <= j < |b.events| ==> EventOk(b.events[j], b.batches)
  }

  ghost predicate WindowsOk(b: Books) {
    && (forall key :: key in b.windows ==> key.0 < |b.grants|)
    && (forall g, start :: 0 <= g < |b.grants| ==> WindowOk(b, g, start))
  }

  ghost predicate Inv(b: Books) {
    && GrantsOk(b) && SessionsOk(b) && BatchesOk(b) && EventsOk(b) && WindowsOk(b)
    && OneAccepting(b.batches) && UniqueKeys(b.events)
    && FundingInvariant.Inv(b.funds)
  }

  // Rewriting events in place.

  /** What no step ever changes about an event. */
  predicate SameCore(e: Event, f: Event) {
    f.usage == e.usage && f.batch == e.batch && f.acceptedAt == e.acceptedAt
  }

  ghost predicate Rewritten(events: seq<Event>, later: seq<Event>) {
    |later| == |events| && forall i :: 0 <= i < |events| ==> SameCore(events[i], later[i])
  }

  lemma RewrittenTallies(events: seq<Event>, later: seq<Event>, k: nat)
    requires Rewritten(events, later)
    ensures Tally(later, AmountIn(k)) == Tally(events, AmountIn(k)) && Tally(later, OneIn(k)) == Tally(events, OneIn(k))
  {
    TallyEqual(later, AmountIn(k), events, AmountIn(k));
    TallyEqual(later, OneIn(k), events, OneIn(k));
  }

  lemma RewrittenWindows(b: Books, m: Books)
    requires WindowsOk(b) && Rewritten(b.events, m.events) && m.windows == b.windows && |m.grants| == |b.grants|
    requires forall g :: 0 <= g < |b.grants| ==> SameLimits(b.grants[g], m.grants[g])
    ensures WindowsOk(m)
  {
    forall g, start | 0 <= g < |m.grants| ensures WindowOk(m, g, start) {
      assert WindowOk(b, g, start) && SameLimits(b.grants[g], m.grants[g]);
      var width := b.grants[g].windowSeconds;
      TallyEqual(m.events, AdmittedIn(g, width, start), b.events, AdmittedIn(g, width, start));
    }
  }

  lemma RewrittenKeys(events: seq<Event>, later: seq<Event>)
    requires Rewritten(events, later) && UniqueKeys(events)
    ensures UniqueKeys(later)
  {
    forall j, k | 0 <= j < k < |later|
      ensures !(later[j].usage.app == later[k].usage.app && later[j].usage.externalId == later[k].usage.externalId)
    {
      assert SameCore(events[j], later[j]) && SameCore(events[k], later[k]);
    }
  }

  /** The fields a grant is created with and never changes. */
  predicate SameLimits(g: Grant, h: Grant) {
    && h.owner == g.owner && h.app == g.app && h.session == g.session
    && h.maxPerEvent == g.maxPerEvent && h.totalLimit == g.totalLimit && h.rateCount == g.rateCount
    && h.windowSeconds == g.windowSeconds && h.threshold == g.threshold && h.maxBatch == g.maxBatch
    && h.maxEvents == g.maxEvents && h.delay == g.delay && h.expiresAt == g.expiresAt
  }

  lemma BatchKept(batch: Batch, k: nat, grants: seq<Grant>, events: seq<Event>, later: seq<Grant>, rewritten: seq<Event>)
    requires BatchOk(batch, k, grants, events) && Rewritten(events, rewritten)
    requires |later| == |grants| && SameLimits(grants[batch.grant], later[batch.grant])
    ensures BatchOk(batch, k, later, rewritten)
  {
    RewrittenTallies(events, rewritten, k);
  }

  // Steps that move no money.

  /** Changing the scheduling fields of one live batch, and the settling mark of events, keeps the invariant. */
  lemma BatchUpdateKeeps(b: Books, k: nat, batch: Batch, nextLease: nat)
    requires Inv(b) && k < |b.batches| && BatchOk(batch, k, b.grants, b.events)
    requires batch.grant == b.batches[k].grant && (batch.accepting ==> b.batches[k].accepting)
    requires batch.status == b.batches[k].status || (!IsTerminal(batch.status) && !IsTerminal(b.batches[k].status))
    ensures Inv(b.(batches := b.batches[k := batch], nextLease := nextLease))
  {
    var m := b.(batches := b.batches[k := batch], nextLease := nextLease);
    forall j | 0 <= j < |m.events| ensures EventOk(m.events[j], m.batches) {
      assert EventOk(b.events[j], b.batches);
    }
    forall j | 0 <= j < |m.batches| ensures BatchOk(m.batches[j], j, m.grants, m.events) {
      assert BatchOk(b.batches[j], j, b.grants, b.events);
    }
    assert WindowsOk(m) by {
      RewrittenWindows(b, m);
    }
  }

  lemma SettlingKeeps(b: Books, k: nat)
    requires Inv(b)
    ensures Inv(b.(events := MarkSettling(b.events, k)))
  {
    var events := MarkSettling(b.events, k);
    var m := b.(events := events);
    assert Rewritten(b.events, events);
    forall g | 0 <= g < |m.grants| ensures GrantOk(m.grants[g], g, m.events, |m.sessions|) {
      assert GrantOk(b.grants[g], g, b.events, |b.sessions|);
      TallyEqual(events, OpenOf(g), b.events, OpenOf(g));
      TallyEqual(events, SettledOf(g), b.events, SettledOf(g));
    }
    forall j | 0 <= j < |m.batches| ensures BatchOk(m.batches[j], j, m.grants, m.events) {
      assert BatchOk(b.batches[j], j, b.grants, b.events);
      BatchKept(b.batches[j], j, b.grants, b.events, b.grants, events);
    }
    forall j | 0 <= j < |m.events| ensures EventOk(m.events[j], m.batches) {
      assert EventOk(b.events[j], b.batches);
    }
    RewrittenWindows(b, m);
    RewrittenKeys(b.events, events);
  }

  lemma RevokeKeeps(b: Books, g: nat)
    requires Inv(b) && g < |b.grants|
    ensures Inv(b.(grants := b.grants[g := b.grants[g].(status := Revoked)]))
  {
    var m := b.(grants := b.grants[g := b.grants[g].(status := Revoked)]);
    assert GrantsOk(m) by {
      forall j | 0 <= j < |m.grants| ensures GrantOk(m.grants[j], j, m.events, |m.sessions|) {
        assert GrantOk(b.grants[j], j, b.events, |b.sessions|);
      }
    }
    forall i | 0 <= i < |m.sessions| ensures SessionOk(m.sessions[i], i, m.grants) {
      assert SessionOk(b.sessions[i], i, b.grants);
      TallyEqual(m.grants, ReservedOn(i), b.grants, ReservedOn(i));
      TallyEqual(m.grants, SpentOn(i), b.grants, SpentOn(i));
    }
    forall k | 0 <= k < |m.batches| ensures BatchOk(m.batches[k], k, m.grants, m.events) {
      assert BatchOk(b.batches[k], k, b.grants, b.events);
      BatchKept(b.batches[k], k, b.grants, b.events, m.grants, b.events);
    }
    RewrittenWindows(b, m);
  }

  lemma AddGrantKeeps(b: Books, g: Grant)
    requires Inv(b) && LimitsOk(g) && g.session < |b.sessions| && g.reserved == 0 && g.spent == 0 && g.status == Active
    ensures Inv(b.(grants := b.grants + [g]))
  {
    var m, n := b.(grants := b.grants + [g]), |b.grants|;
    NothingOfNewGrant(b);
    forall j | 0 <= j < |m.grants| ensures GrantOk(m.grants[j], j, m.events, |m.sessions|) {
      assert j < n ==> GrantOk(b.grants[j], j, b.events, |b.sessions|);
    }
    forall i | 0 <= i < |m.sessions| ensures SessionOk(m.sessions[i], i, m.grants) {
      assert SessionOk(b.sessions[i], i, b.grants);
      TallyAppend(b.grants, g, ReservedOn(i));
      TallyAppend(b.grants, g, SpentOn(i));
    }
    forall k | 0 <= k < |m.batches| ensures BatchOk(m.batches[k], k, m.grants, m.events) {
      assert BatchOk(b.batches[k], k, b.grants, b.events);
    }
    AddGrantWindows(b, g);
  }

  lemma NothingOfNewGrant(b: Books)
    requires EventsOk(b) && BatchesOk(b)
    ensures Tally(b.events, OpenOf(|b.grants|)) == 0 && Tally(b.events, SettledOf(|b.grants|)) == 0
    ensures forall j :: 0 <= j < |b.events| ==> b.events[j].usage.grant < |b.grants|
  {
    forall j | 0 <= j < |b.events| ensures b.events[j].usage.grant < |b.grants| {
      assert EventOk(b.events[j], b.batches);
      assert BatchOk(b.batches[b.events[j].batch], b.events[j].batch, b.grants, b.events);
    }
    TallyZero(b.events, OpenOf(|b.grants|));
    TallyZero(b.events, SettledOf(|b.grants|));
  }

  lemma AddGrantWindows(b: Books, g: Grant)
    requires Inv(b)
    ensures WindowsOk(b.(grants := b.grants + [g]))
  {
    var m, n := b.(grants := b.grants + [g]), |b.grants|;
    NothingOfNewGrant(b);
    forall j, start | 0 <= j < |m.grants| ensures WindowOk(m, j, start) {
      if j < n {
        assert WindowOk(b, j, start);
      } else {
        TallyZero(b.events, AdmittedIn(n, g.windowSeconds, start));
        assert (n, start) !in b.windows;
      }
    }
  }

  lemma SessionUpdateKeeps(b: Books, i: nat, s: Session)
    requires Inv(b) && i < |b.sessions| && s.reserved == b.sessions[i].reserved && s.spent == b.sessions[i].spent
    requires s.limit >= b.sessions[i].limit
    ensures Inv(b.(sessions := b.sessions[i := s]))
  {
    var m := b.(sessions := b.sessions[i := s]);
    forall j | 0 <= j < |m.sessions| ensures SessionOk(m.sessions[j], j, m.grants) {
      assert SessionOk(b.sessions[j], j, b.grants);
    }
    RewrittenWindows(b, m);
  }

  lemma AddSessionKeeps(b: Books, s: Session)
    requires Inv(b) && s.reserved == 0 && s.spent == 0
    ensures Inv(b.(sessions := b.sessions + [s]))
  {
    var m, n := b.(sessions := b.sessions + [s]), |b.sessions|;
    forall g | 0 <= g < |m.grants| ensures GrantOk(m.grants[g], g, m.events, |m.sessions|) {
      assert GrantOk(b.grants[g], g, b.events, n);
    }
    TallyZero(b.grants, ReservedOn(n));
    TallyZero(b.grants, SpentOn(n));
    forall j | 0 <= j < |m.sessions| ensures SessionOk(m.sessions[j], j, m.grants) {
      assert j < n ==> SessionOk(b.sessions[j], j, b.grants);
    }
    RewrittenWindows(b, m);
  }
}
