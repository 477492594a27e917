/** One visit of the payment worker to a claimed batch, and its whole loop, as functions of what the provider and
    the other processes do meanwhile (src/services/meteredPaymentWorker.service.ts, runMeteredPaymentWorker). */
module MeteredWorker {
  import opened Wrappers
  import opened Money
  import opened Tallies
  import opened Receipts
  import opened Metered
  import opened MeteredInvariant
  import opened MeteredSteps
  import opened MeteredTheorems
  import Funding

  /** What a lookup or an execution reports; a throw carries whether it is worth retrying. */
  datatype Reply = Confirmed(fee: Fee, proof: nat) | Unsettled | Refused | Threw(retryable: bool)

  /** Everything a visit meets outside the worker: the answers it gets, the steps other processes take while it
      waits for them, whether the executor marked the batch submitted, and the time of its own writes. */
  datatype Visit = Visit(
    lookup: Option<Reply>,
    whileLooking: seq<(Op, int)>,
    prepared: Result<(), bool>,
    whilePreparing: seq<(Op, int)>,
    marks: bool,
    reply: Reply,
    whileExecuting: seq<(Op, int)>,
    at: int)

  datatype Outcome = Settled | StillPending | Rescheduled | Returned | LeaseLost | Stopped

  /** The failures a visit may retry: all but a rejected request. */
  predicate Retryable(e: Rejection) {
    e != LegacyLimit
  }

  // The listing a finalization works on.

  /** Where an event accepted at time `t` goes in a listing ordered by time: after everything not later. */
  function Place(listing: seq<nat>, events: seq<Event>, t: int): (p: nat)
    requires forall i :: 0 <= i < |listing| ==> listing[i] < |events|
    ensures p <= |listing|
    ensures p > 0 ==> events[listing[p - 1]].acceptedAt <= t
    ensures forall i :: p <= i < |listing| ==> events[listing[i]].acceptedAt > t
  {
    if listing == [] then 0
    else if events[listing[|listing| - 1]].acceptedAt <= t then |listing|
    else Place(listing[..|listing| - 1], events, t)
  }

  function InsertAt(listing: seq<nat>, p: nat, n: nat): (all: seq<nat>)
    requires p <= |listing|
    ensures |all| == |listing| + 1
    ensures forall i :: 0 <= i < |all| ==> all[i] == if i < p then listing[i] else if i == p then n else listing[i - 1]
  {
    listing[..p] + [n] + listing[p..]
  }

  /** The open events of a batch by acceptance time, earlier stored ones first. */
  function Listing(events: seq<Event>, k: nat): (listing: seq<nat>)
    ensures forall i :: 0 <= i < |listing| ==> listing[i] < |events|
  {
    if events == [] then []
    else
      var n := |events| - 1;
      var before := Listing(events[..n], k);
      if events[n].batch == k && IsOpen(events[n]) then
        var p := Place(before, events, events[n].acceptedAt);
        InsertAt(before, p, n)
      else before
  }

  ghost predicate InOrder(events: seq<Event>, listing: seq<nat>, i: nat, j: nat)
    requires i < |listing| && j < |listing| && listing[i] < |events| && listing[j] < |events|
  {
    events[listing[i]].acceptedAt <= events[listing[j]].acceptedAt
  }

  ghost predicate Ordered(events: seq<Event>, listing: seq<nat>)
    requires forall i :: 0 <= i < |listing| ==> listing[i] < |events|
  {
    forall i, j :: 0 <= i < j < |listing| ==> InOrder(events, listing, i, j)
  }

  /** The place splits the listing into events not later and events not earlier than the new one. */
  ghost predicate Splits(events: seq<Event>, listing: seq<nat>, p: nat, t: int)
    requires forall i :: 0 <= i < |listing| ==> listing[i] < |events|
  {
    && p <= |listing| && (p > 0 ==> events[listing[p - 1]].acceptedAt <= t)
    && (p < |listing| ==> t <= events[listing[p]].acceptedAt)
  }

  lemma InsertPair(events: seq<Event>, listing: seq<nat>, p: nat, n: nat, i: nat, j: nat)
    requires n < |events| && (forall i :: 0 <= i < |listing| ==> listing[i] < |events|)
    requires Ordered(events, listing) && Splits(events, listing, p, events[n].acceptedAt)
    requires i < j <= |listing|
    ensures InOrder(events, InsertAt(listing, p, n), i, j)
  {
    if j == p {
      assert i < p - 1 ==> InOrder(events, listing, i, p - 1);
    } else if i == p {
      assert p < j - 1 ==> InOrder(events, listing, p, j - 1);
    } else {
      assert InOrder(events, listing, if i < p then i else i - 1, if j < p then j else j - 1);
    }
  }

  lemma InsertOrdered(events: seq<Event>, listing: seq<nat>, p: nat, n: nat)
    requires n < |events| && (forall i :: 0 <= i < |listing| ==> listing[i] < |events|)
    requires Ordered(events, listing) && Splits(events, listing, p, events[n].acceptedAt)
    ensures Ordered(events, InsertAt(listing, p, n))
  {
    var all := InsertAt(listing, p, n);
    forall i, j | 0 <= i < j < |all| ensures InOrder(events, all, i, j) {
      InsertPair(events, listing, p, n, i, j);
    }
  }

  /** Every entry lists an open event of the batch. */
  ghost predicate Lists(events: seq<Event>, k: nat, listing: seq<nat>) {
    forall i :: 0 <= i < |listing| ==>
                  listing[i] < |events| && events[listing[i]].batch == k && IsOpen(events[listing[i]])
  }

  lemma InsertLists(events: seq<Event>, k: nat, listing: seq<nat>, p: nat, n: nat)
    requires Lists(events, k, listing) && p <= |listing|
    requires n < |events| && events[n].batch == k && IsOpen(events[n])
    ensures Lists(events, k, InsertAt(listing, p, n))
  {}

  ghost predicate Covers(events: seq<Event>, k: nat, listing: seq<nat>, n: nat)
    requires n <= |events|
  {
    forall j :: 0 <= j < n && events[j].batch == k && IsOpen(events[j]) ==> j in listing
  }

  lemma InsertDistinct(listing: seq<nat>, p: nat, n: nat)
    requires p <= |listing| && Distinct(listing) && n !in listing
    ensures Distinct(InsertAt(listing, p, n))
  {
    var all := InsertAt(listing, p, n);
    forall i, j | 0 <= i < j < |all| ensures all[i] != all[j] {
      assert all[i] == if i < p then listing[i] else if i == p then n else listing[i - 1];
      assert all[j] == if j < p then listing[j] else if j == p then n else listing[j - 1];
    }
  }

  lemma InsertCovers(listing: seq<nat>, p: nat, n: nat, j: nat)
    requires p <= |listing| && (j == n || j in listing)
    ensures j in InsertAt(listing, p, n)
  {
    var all := InsertAt(listing, p, n);
    if j == n {
      assert all[p] == n;
    } else {
      var q :| 0 <= q < |listing| && listing[q] == j;
      assert all[if q < p then q else q + 1] == j;
    }
  }

  lemma PrefixListing(events: seq<Event>, k: nat, before: seq<nat>)
    requires events != [] && IsListing(events[..|events| - 1], k, before)
    ensures Lists(events, k, before) && |events| - 1 !in before
    ensures Ordered(events, before) && Covers(events, k, before, |events| - 1)
  {
    var prefix := events[..|events| - 1];
    forall i | 0 <= i < |before|
      ensures before[i] < |events| - 1 && events[before[i]].batch == k && IsOpen(events[before[i]])
    {
      assert prefix[before[i]] == events[before[i]];
    }
    forall i, j | 0 <= i < j < |before| ensures InOrder(events, before, i, j) {
      assert prefix[before[i]].acceptedAt <= prefix[before[j]].acceptedAt;
    }
    forall j | 0 <= j < |events| - 1 && events[j].batch == k && IsOpen(events[j]) ensures j in before {
      assert prefix[j] == events[j];
    }
  }

  lemma InsertListing(events: seq<Event>, k: nat, before: seq<nat>, n: nat, p: nat)
    requires |events| == n + 1 && Lists(events, k, before) && n !in before && Distinct(before)
    requires Ordered(events, before) && Covers(events, k, before, n)
    requires events[n].batch == k && IsOpen(events[n]) && Splits(events, before, p, events[n].acceptedAt)
    ensures IsListing(events, k, InsertAt(before, p, n))
  {
    InsertDistinct(before, p, n);
    InsertOrdered(events, before, p, n);
    InsertLists(events, k, before, p, n);
    forall j | 0 <= j < |events| && events[j].batch == k && IsOpen(events[j]) ensures j in InsertAt(before, p, n) {
      InsertCovers(before, p, n, j);
    }
    FinishListing(events, k, InsertAt(before, p, n));
  }

  lemma FinishListing(events: seq<Event>, k: nat, listing: seq<nat>)
    requires Lists(events, k, listing) && Distinct(listing) && Ordered(events, listing)
    requires Covers(events, k, listing, |events|)
    ensures IsListing(events, k, listing)
  {
    forall i, j | 0 <= i < j < |listing| ensures events[listing[i]].acceptedAt <= events[listing[j]].acceptedAt {
      assert InOrder(events, listing, i, j);
    }
  }

  lemma {:induction false} ListingIsListing(events: seq<Event>, k: nat)
    ensures IsListing(events, k, Listing(events, k))
  {
    if events != [] {
      var n := |events| - 1;
      var before := Listing(events[..n], k);
      ListingIsListing(events[..n], k);
      PrefixListing(events, k, before);
      if events[n].batch == k && IsOpen(events[n]) {
        InsertListing(events, k, before, n, Place(before, events, events[n].acceptedAt));
      } else {
        FinishListing(events, k, before);
      }
    }
  }

  // One visit.

  /** The handler of a throw: the batch is retried while that may help, and returned to its owner otherwise. */
  function OnError(b: Books, k: nat, batch: Batch, lease: nat, retryable: bool, at: int): (Books, Outcome) {
    if retryable && batch.attempts < MAX_ATTEMPTS
    then (Retry(b, k, lease, batch.attempts, k < |b.batches| && b.batches[k].submitted, at), Rescheduled)
    else
      var r := Release(b, k, true, at);
      if r.Ok? then (r.value, Returned) else (b, Stopped)
  }

  function Settle(b: Books, k: nat, batch: Batch, lease: nat, fee: Fee, proof: nat, at: int): (Books, Outcome) {
    var r := Finalize(b, k, Listing(b.events, k), fee, proof, at);
    if r.Ok? then (r.value, Settled) else OnError(b, k, batch, lease, Retryable(r.error), at)
  }

  function GiveUp(b: Books, k: nat, batch: Batch, lease: nat, failed: bool, at: int): (Books, Outcome) {
    var r := Release(b, k, failed, at);
    if r.Ok? then (r.value, Returned) else OnError(b, k, batch, lease, true, at)
  }

  /** What follows an answer from the provider. */
  function React(b: Books, k: nat, batch: Batch, lease: nat, reply: Reply, submitted: bool, at: int): (Books, Outcome) {
    match reply
    case Confirmed(fee, proof) => Settle(b, k, batch, lease, fee, proof, at)
    case Unsettled => (Retry(b, k, lease, batch.attempts, submitted, at), StillPending)
    case Refused => GiveUp(b, k, batch, lease, true, at)
    case Threw(retryable) => OnError(b, k, batch, lease, retryable, at)
  }

  /** The ledger when the provider answers an execution: the events are settling, the batch may be marked submitted,
      and other processes went on. */
  function Underway(prepared: Books, k: nat, lease: nat, v: Visit): Books {
    var settling := prepared.(events := MarkSettling(prepared.events, k));
    Run(if v.marks then MarkSubmitted(settling, k, lease) else settling, v.whileExecuting)
  }

  predicate Holds(b: Books, k: nat, lease: nat) {
    k < |b.batches| && b.batches[k].lease == Some(lease)
  }

  /** Resolves a payment request and executes it, if the lease is still this worker's. */
  function Execute(b: Books, k: nat, batch: Batch, lease: nat, v: Visit): (Books, Outcome) {
    var prepared := Run(b, v.whilePreparing);
    if v.prepared.Err? then OnError(prepared, k, batch, lease, v.prepared.error, v.at)
    else if !Holds(prepared, k, lease) then (prepared, LeaseLost)
    else React(Underway(prepared, k, lease, v), k, batch, lease, v.reply, v.marks, v.at)
  }

  /** A visit to batch `k`, which the worker has just claimed as `batch` under `lease`. */
  function Serve(b: Books, k: nat, batch: Batch, lease: nat, v: Visit): (Books, Outcome) {
    if batch.grant >= |b.grants| then OnError(b, k, batch, lease, false, v.at)
    else if b.grants[batch.grant].status == Revoked && !batch.submitted then GiveUp(b, k, batch, lease, false, v.at)
    else if !batch.submitted then Execute(b, k, batch, lease, v)
    else
      var looked := Run(b, v.whileLooking);
      if v.lookup.Some? then React(looked, k, batch, lease, v.lookup.value, true, v.at)
      else Execute(looked, k, batch, lease, v)
  }

  // The loop.

  /** The batch a claim picks: the claimable one due first, the oldest of several. */
  function Earliest(batches: seq<Batch>, now: int): (k: Option<nat>)
    ensures k.Some? ==> k.value < |batches| && Claimable(batches[k.value], now)
    ensures k.Some? ==> forall j :: 0 <= j < |batches| && Claimable(batches[j], now) ==>
                                      batches[k.value].runAfter < batches[j].runAfter
                                      || (batches[k.value].runAfter == batches[j].runAfter && k.value <= j)
    ensures k.None? ==> forall j :: 0 <= j < |batches| ==> !Claimable(batches[j], now)
  {
    if batches == [] then None
    else
      var n := |batches| - 1;
      var before := Earliest(batches[..n], now);
      if Claimable(batches[n], now) && (before.None? || batches[n].runAfter < batches[before.value].runAfter)
      then Some(n) else before
  }

  /** Claims batch `k` and visits it. */
  function VisitOnce(b: Books, k: nat, v: Visit, now: int): (Books, Outcome)
    requires k < |b.batches|
  {
    var claimed := Claim(b, k, now);
    Serve(claimed, k, claimed.batches[k], b.nextLease, v)
  }

  /** The worker's loop: claim, visit, repeat, until nothing is due, the visits are used up, or a visit stops it. */
  function Work(b: Books, visits: seq<Visit>, now: int): (r: (Books, seq<Outcome>))
    ensures |r.1| <= |visits|
    decreases |visits|
  {
    var k := Earliest(b.batches, now);
    if visits == [] || k.None? then (b, [])
    else
      var (served, outcome) := VisitOnce(b, k.value, visits[0], now);
      if outcome == Stopped then (served, [outcome])
      else
        var (done, outcomes) := Work(served, visits[1..], now);
        (done, [outcome] + outcomes)
  }

  lemma WorkTurn(b: Books, visits: seq<Visit>, now: int)
    requires visits != []
    ensures var k := Earliest(b.batches, now);
            if k.None? then Work(b, visits, now) == (b, [])
            else
              var (served, outcome) := VisitOnce(b, k.value, visits[0], now);
              Work(b, visits, now) == if outcome == Stopped then (served, [outcome])
                                      else (Work(served, visits[1..], now).0, [outcome] + Work(served, visits[1..], now).1)
  {}

  // The worker takes only steps of the ledger.

  lemma {:induction false} RunThenRun(b: Books, first: seq<(Op, int)>, second: seq<(Op, int)>)
    ensures Run(Run(b, first), second) == Run(b, first + second)
  {
    if second == [] {
      assert first + second == first;
    } else {
      var n := |second| - 1;
      RunThenRun(b, first, second[..n]);
      assert (first + second)[..|first + second| - 1] == first + second[..n];
    }
  }

  lemma RunOne(b: Books, op: Op, now: int)
    ensures Run(b, [(op, now)]) == Step(b, op, now)
  {
    assert [(op, now)][..0] == [];
  }

  lemma OnErrorIsRun(b: Books, k: nat, batch: Batch, lease: nat, retryable: bool, at: int) returns (trace: seq<(Op, int)>)
    ensures OnError(b, k, batch, lease, retryable, at).0 == Run(b, trace)
  {
    var op := if retryable && batch.attempts < MAX_ATTEMPTS
              then DoRetry(k, lease, batch.attempts, k < |b.batches| && b.batches[k].submitted) else DoRelease(k, true);
    trace := [(op, at)];
    RunOne(b, op, at);
  }

  lemma FinalizeOne(b: Books, k: nat, listing: seq<nat>, fee: Fee, proof: nat, at: int)
    requires IsListing(b.events, k, listing) && Finalize(b, k, listing, fee, proof, at).Ok?
    ensures Run(b, [(DoFinalize(k, listing, fee, proof), at)]) == Finalize(b, k, listing, fee, proof, at).value
  {
    var op := DoFinalize(k, listing, fee, proof);
    RunOne(b, op, at);
    assert Step(b, op, at) == OrUnchanged(b, Finalize(b, k, listing, fee, proof, at));
  }

  lemma SettleIsRun(b: Books, k: nat, batch: Batch, lease: nat, fee: Fee, proof: nat, at: int) returns (trace: seq<(Op, int)>)
    ensures Settle(b, k, batch, lease, fee, proof, at).0 == Run(b, trace)
  {
    var listing := Listing(b.events, k);
    ListingIsListing(b.events, k);
    var r := Finalize(b, k, listing, fee, proof, at);
    if r.Ok? {
      FinalizeOne(b, k, listing, fee, proof, at);
      trace := [(DoFinalize(k, listing, fee, proof), at)];
    } else {
      trace := OnErrorIsRun(b, k, batch, lease, Retryable(r.error), at);
    }
  }

  lemma ReactIsRun(b: Books, k: nat, batch: Batch, lease: nat, reply: Reply, submitted: bool, at: int)
    returns (trace: seq<(Op, int)>)
    ensures React(b, k, batch, lease, reply, submitted, at).0 == Run(b, trace)
  {
    match reply
    case Confirmed(fee, proof) => trace := SettleIsRun(b, k, batch, lease, fee, proof, at);
    case Unsettled =>
      trace := [(DoRetry(k, lease, batch.attempts, submitted), at)];
      RunOne(b, DoRetry(k, lease, batch.attempts, submitted), at);
    case Refused => trace := GiveUpIsRun(b, k, batch, lease, true, at);
    case Threw(retryable) => trace := OnErrorIsRun(b, k, batch, lease, retryable, at);
  }

  lemma GiveUpIsRun(b: Books, k: nat, batch: Batch, lease: nat, failed: bool, at: int) returns (trace: seq<(Op, int)>)
    ensures GiveUp(b, k, batch, lease, failed, at).0 == Run(b, trace)
  {
    if Release(b, k, failed, at).Ok? {
      trace := [(DoRelease(k, failed), at)];
      RunOne(b, DoRelease(k, failed), at);
    } else {
      trace := OnErrorIsRun(b, k, batch, lease, true, at);
    }
  }

  lemma UnderwayIsRun(b: Books, k: nat, lease: nat, v: Visit) returns (trace: seq<(Op, int)>)
    requires Holds(b, k, lease)
    ensures Underway(b, k, lease, v) == Run(b, trace)
  {
    var settling := b.(events := MarkSettling(b.events, k));
    RunOne(b, DoSettling(k), v.at);
    RunOne(settling, DoMarkSubmitted(k, lease), v.at);
    RunThenRun(b, [(DoSettling(k), v.at)], [(DoMarkSubmitted(k, lease), v.at)]);
    var steps := [(DoSettling(k), v.at)] + if v.marks then [(DoMarkSubmitted(k, lease), v.at)] else [];
    assert !v.marks ==> steps == [(DoSettling(k), v.at)];
    RunThenRun(b, steps, v.whileExecuting);
    trace := steps + v.whileExecuting;
  }

  lemma ExecuteIsRun(b: Books, k: nat, batch: Batch, lease: nat, v: Visit) returns (trace: seq<(Op, int)>)
    ensures Execute(b, k, batch, lease, v).0 == Run(b, trace)
  {
    var prepared := Run(b, v.whilePreparing);
    trace := v.whilePreparing;
    if v.prepared.Err? {
      var more := OnErrorIsRun(prepared, k, batch, lease, v.prepared.error, v.at);
      RunThenRun(b, trace, more);
      trace := trace + more;
    } else if Holds(prepared, k, lease) {
      var steps := UnderwayIsRun(prepared, k, lease, v);
      var more := ReactIsRun(Underway(prepared, k, lease, v), k, batch, lease, v.reply, v.marks, v.at);
      RunThenRun(prepared, steps, more);
      RunThenRun(b, v.whilePreparing, steps + more);
      trace := v.whilePreparing + (steps + more);
    }
  }

  lemma ServeIsRun(b: Books, k: nat, batch: Batch, lease: nat, v: Visit) returns (trace: seq<(Op, int)>)
    ensures Serve(b, k, batch, lease, v).0 == Run(b, trace)
  {
    if batch.grant >= |b.grants| {
      trace := OnErrorIsRun(b, k, batch, lease, false, v.at);
    } else if b.grants[batch.grant].status == Revoked && !batch.submitted {
      trace := GiveUpIsRun(b, k, batch, lease, false, v.at);
    } else if !batch.submitted {
      trace := ExecuteIsRun(b, k, batch, lease, v);
    } else {
      var looked := Run(b, v.whileLooking);
      if v.lookup.Some? {
        trace := ReactIsRun(looked, k, batch, lease, v.lookup.value, true, v.at);
      } else {
        trace := ExecuteIsRun(looked, k, batch, lease, v);
      }
      RunThenRun(b, v.whileLooking, trace);
      trace := v.whileLooking + trace;
    }
  }

  lemma VisitIsRun(b: Books, k: nat, v: Visit, now: int) returns (trace: seq<(Op, int)>)
    requires k < |b.batches|
    ensures VisitOnce(b, k, v, now).0 == Run(b, trace)
  {
    var claimed := Claim(b, k, now);
    RunOne(b, DoClaim(k), now);
    var visit := ServeIsRun(claimed, k, claimed.batches[k], b.nextLease, v);
    RunThenRun(b, [(DoClaim(k), now)], visit);
    trace := [(DoClaim(k), now)] + visit;
  }

  /** However the provider answers and whatever other processes do meanwhile, the worker's loop is a run of the
      ledger's steps: every run theorem holds of it. */
  lemma {:induction false} WorkIsRun(b: Books, visits: seq<Visit>, now: int) returns (trace: seq<(Op, int)>)
    ensures Work(b, visits, now).0 == Run(b, trace)
    decreases |visits|
  {
    var k := Earliest(b.batches, now);
    if visits == [] || k.None? {
      trace := [];
    } else {
      trace := VisitIsRun(b, k.value, visits[0], now);
      var (served, outcome) := VisitOnce(b, k.value, visits[0], now);
      if outcome != Stopped {
        var rest := WorkIsRun(served, visits[1..], now);
        RunThenRun(b, trace, rest);
        trace := trace + rest;
      }
    }
  }

  lemma OnErrorGoesOn(b: Books, k: nat, batch: Batch, lease: nat, retryable: bool, at: int)
    requires Inv(b)
    ensures OnError(b, k, batch, lease, retryable, at).1
            == if retryable && batch.attempts < MAX_ATTEMPTS then Rescheduled else Returned
  {
    ReleaseAlwaysCommits(b, k, true, at);
  }

  lemma ReactGoesOn(b: Books, k: nat, batch: Batch, lease: nat, reply: Reply, submitted: bool, at: int)
    requires Inv(b)
    ensures React(b, k, batch, lease, reply, submitted, at).1 != Stopped
  {
    match reply
    case Confirmed(fee, proof) =>
      var r := Finalize(b, k, Listing(b.events, k), fee, proof, at);
      if r.Err? {
        OnErrorGoesOn(b, k, batch, lease, Retryable(r.error), at);
      }
    case Unsettled =>
    case Refused => ReleaseAlwaysCommits(b, k, true, at);
    case Threw(retryable) => OnErrorGoesOn(b, k, batch, lease, retryable, at);
  }

  lemma UnderwayKeeps(b: Books, k: nat, lease: nat, v: Visit)
    requires Inv(b)
    ensures Inv(Underway(b, k, lease, v))
  {
    var settling := b.(events := MarkSettling(b.events, k));
    SettlingKeeps(b, k);
    MarkSubmittedKeeps(settling, k, lease);
    RunKeeps(if v.marks then MarkSubmitted(settling, k, lease) else settling, v.whileExecuting);
  }

  lemma ExecuteGoesOn(b: Books, k: nat, batch: Batch, lease: nat, v: Visit)
    requires Inv(b)
    ensures Execute(b, k, batch, lease, v).1 != Stopped
  {
    var prepared := Run(b, v.whilePreparing);
    RunKeeps(b, v.whilePreparing);
    if v.prepared.Err? {
      OnErrorGoesOn(prepared, k, batch, lease, v.prepared.error, v.at);
    } else {
      UnderwayKeeps(prepared, k, lease, v);
      ReactGoesOn(Underway(prepared, k, lease, v), k, batch, lease, v.reply, v.marks, v.at);
    }
  }

  lemma ServeGoesOn(b: Books, k: nat, batch: Batch, lease: nat, v: Visit)
    requires Inv(b)
    ensures Serve(b, k, batch, lease, v).1 != Stopped
  {
    RunKeeps(b, v.whileLooking);
    ReleaseAlwaysCommits(b, k, false, v.at);
    OnErrorGoesOn(b, k, batch, lease, false, v.at);
    ExecuteGoesOn(b, k, batch, lease, v);
    var looked := Run(b, v.whileLooking);
    ExecuteGoesOn(looked, k, batch, lease, v);
    if v.lookup.Some? {
      ReactGoesOn(looked, k, batch, lease, v.lookup.value, true, v.at);
    }
  }

  /** From a consistent ledger a visit leaves a consistent one, and the error handler itself never throws. */
  lemma VisitKeeps(b: Books, v: Visit, now: int)
    requires Inv(b)
    ensures var k := Earliest(b.batches, now);
            k.Some? ==> Inv(VisitOnce(b, k.value, v, now).0) && VisitOnce(b, k.value, v, now).1 != Stopped
  {
    var k := Earliest(b.batches, now);
    if k.Some? {
      var trace := VisitIsRun(b, k.value, v, now);
      RunKeeps(b, trace);
      ClaimKeeps(b, k.value, now);
      var claimed := Claim(b, k.value, now);
      ServeGoesOn(claimed, k.value, claimed.batches[k.value], b.nextLease, v);
    }
  }
}
