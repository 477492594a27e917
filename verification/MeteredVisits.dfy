/** Which step of the ledger the payment worker takes on every answer, and on every way a visit can go
    (src/services/meteredPaymentWorker.service.ts, runMeteredPaymentWorker). */
module MeteredVisits {
  import opened Wrappers
  import opened Money
  import opened Tallies
  import opened Receipts
  import opened Metered
  import opened MeteredInvariant
  import opened MeteredSteps
  import opened MeteredTheorems
  import opened MeteredWorker
  import opened MeteredGiveBack

  /** The worker settles exactly the open events of the batch, each once and in the order they were accepted. */
  lemma ListingIs(events: seq<Event>, k: nat)
    ensures var listing := Listing(events, k);
            && (forall i :: 0 <= i < |listing| ==>
                  listing[i] < |events| && events[listing[i]].batch == k
                  && events[listing[i]].status in {EventReserved, EventSettling})
            && (forall j :: 0 <= j < |events| && events[j].batch == k && events[j].status in {EventReserved, EventSettling} ==>
                  j in listing)
            && (forall i, j :: 0 <= i < j < |listing| ==>
                  listing[i] != listing[j] && events[listing[i]].acceptedAt <= events[listing[j]].acceptedAt)
  {
    ListingIsListing(events, k);
  }

  /** After a throw the batch is retried on an attempt before the fifth, if that may help, and given back otherwise. */
  ghost predicate Handled(b: Books, k: nat, batch: Batch, lease: nat, retryable: bool, at: int, r: (Books, Outcome)) {
    if retryable && batch.attempts < 5
    then r == (Step(b, DoRetry(k, lease, batch.attempts, k < |b.batches| && b.batches[k].submitted), at), Rescheduled)
    else r == (Step(b, DoRelease(k, true), at), Returned)
  }

  lemma ErrorIsHandled(b: Books, k: nat, batch: Batch, lease: nat, retryable: bool, at: int)
    requires Inv(b)
    ensures Handled(b, k, batch, lease, retryable, at, OnError(b, k, batch, lease, retryable, at))
  {
    if !(retryable && batch.attempts < 5) {
      ReleaseAlwaysCommits(b, k, true, at);
    }
  }

  /** What a confirmation can settle: a batch that already succeeded, or a live one whose counter, funding and fee allow it. */
  ghost predicate CanSettle(b: Books, k: nat, fee: Fee)
    requires k < |b.batches|
  {
    || b.batches[k].status == Succeeded
    || (!IsTerminal(b.batches[k].status) && Settleable(b, k, Listing(b.events, k), fee))
  }

  /** A finalization of the listed events commits exactly if the batch can settle, and its failure is hopeless exactly when the
      spent counter of the pass would leave the safe integers. */
  lemma FinalizeAnswer(b: Books, k: nat, fee: Fee, proof: nat, at: int)
    requires Inv(b) && k < |b.batches|
    ensures var r := Finalize(b, k, Listing(b.events, k), fee, proof, at);
            (r.Ok? <==> CanSettle(b, k, fee)) && (r.Err? ==> Retryable(r.error) == !Hopeless(b, k))
  {
    var listing := Listing(b.events, k);
    ListingIsListing(b.events, k);
    if b.batches[k].status != Succeeded {
      FinalizeOutcome(b, k, listing, fee, proof, at);
      OpenInBatch(b, k);
      if !IsTerminal(b.batches[k].status) {
        FinalizeCommitsIff(b, k, listing, fee, proof, at);
      }
    }
  }

  lemma FinalizeStep(b: Books, k: nat, fee: Fee, proof: nat, at: int)
    requires Finalize(b, k, Listing(b.events, k), fee, proof, at).Ok?
    ensures Step(b, DoFinalize(k, Listing(b.events, k), fee, proof), at)
            == Finalize(b, k, Listing(b.events, k), fee, proof, at).value
  {
    ListingIsListing(b.events, k);
    FinalizeOne(b, k, Listing(b.events, k), fee, proof, at);
    RunOne(b, DoFinalize(k, Listing(b.events, k), fee, proof), at);
  }

  /** A confirmation settles the batch's open events if it can; what cannot be settled is handled as a throw, hopeless only
      when the spent counter of the pass would leave the safe integers. */
  lemma ConfirmedIs(b: Books, k: nat, batch: Batch, lease: nat, fee: Fee, proof: nat, submitted: bool, at: int)
    requires Inv(b) && k < |b.batches|
    ensures var r := React(b, k, batch, lease, Confirmed(fee, proof), submitted, at);
            if CanSettle(b, k, fee) then r == (Step(b, DoFinalize(k, Listing(b.events, k), fee, proof), at), Settled)
            else Handled(b, k, batch, lease, !Hopeless(b, k), at, r)
  {
    FinalizeAnswer(b, k, fee, proof, at);
    if CanSettle(b, k, fee) {
      FinalizeStep(b, k, fee, proof, at);
    } else {
      ErrorIsHandled(b, k, batch, lease, !Hopeless(b, k), at);
    }
  }

  /** The other answers: an undecided payment is looked at again later, a refused one is given back, a throw is handled. */
  lemma OtherAnswersAre(b: Books, k: nat, batch: Batch, lease: nat, submitted: bool, retryable: bool, at: int)
    requires Inv(b) && k < |b.batches|
    ensures React(b, k, batch, lease, Unsettled, submitted, at)
            == (Step(b, DoRetry(k, lease, batch.attempts, submitted), at), StillPending)
    ensures React(b, k, batch, lease, Refused, submitted, at) == (Step(b, DoRelease(k, true), at), Returned)
    ensures Handled(b, k, batch, lease, retryable, at, React(b, k, batch, lease, Threw(retryable), submitted, at))
  {
    ReleaseAlwaysCommits(b, k, true, at);
    ErrorIsHandled(b, k, batch, lease, retryable, at);
  }

  /** The ledger when an execution is answered: after the requests were prepared the batch's events were marked settling
      and, by an executor that submits, the batch as submitted. */
  ghost predicate Begun(prepared: Books, k: nat, lease: nat, v: Visit, answered: Books) {
    var settling := Step(prepared, DoSettling(k), v.at);
    answered == Run(if v.marks then Step(settling, DoMarkSubmitted(k, lease), v.at) else settling, v.whileExecuting)
  }

  lemma UnderwayIsBegun(prepared: Books, k: nat, lease: nat, v: Visit)
    ensures Begun(prepared, k, lease, v, Underway(prepared, k, lease, v))
  {}

  /** An execution: a request that cannot be prepared is handled as a throw, a lost lease ends the visit without a write,
      and otherwise the answer decides. */
  lemma ExecutionIs(b: Books, k: nat, batch: Batch, lease: nat, v: Visit)
    requires Inv(b)
    ensures var prepared := Run(b, v.whilePreparing);
            var mine := k < |prepared.batches| && prepared.batches[k].lease == Some(lease);
            var r := Execute(b, k, batch, lease, v);
            && (v.prepared.Err? ==> Handled(prepared, k, batch, lease, v.prepared.error, v.at, r))
            && (v.prepared.Ok? && !mine ==> r == (prepared, LeaseLost))
            && (v.prepared.Ok? && mine ==>
                  exists answered :: Begun(prepared, k, lease, v, answered)
                                     && r == React(answered, k, batch, lease, v.reply, v.marks, v.at))
  {
    RunKeeps(b, v.whilePreparing);
    var prepared := Run(b, v.whilePreparing);
    if v.prepared.Err? {
      ErrorIsHandled(prepared, k, batch, lease, v.prepared.error, v.at);
    } else {
      UnderwayIsBegun(prepared, k, lease, v);
    }
  }

  /** How a visit to a batch that was just claimed goes on. */
  ghost predicate GoesOn(claimed: Books, k: nat, batch: Batch, lease: nat, v: Visit, r: (Books, Outcome))
    requires batch.grant < |claimed.grants|
  {
    if !batch.submitted && claimed.grants[batch.grant].status == Revoked
    then r == (Step(claimed, DoRelease(k, false), v.at), Returned)
    else if !batch.submitted then r == Execute(claimed, k, batch, lease, v)
    else
      var looked := Run(claimed, v.whileLooking);
      r == if v.lookup.Some? then React(looked, k, batch, lease, v.lookup.value, true, v.at) else Execute(looked, k, batch, lease, v)
  }

  lemma ServeGoesSo(claimed: Books, k: nat, batch: Batch, lease: nat, v: Visit)
    requires Inv(claimed) && batch.grant < |claimed.grants|
    ensures GoesOn(claimed, k, batch, lease, v, Serve(claimed, k, batch, lease, v))
  {
    ReleaseAlwaysCommits(claimed, k, false, v.at);
  }

  /** A visit claims its batch first. A batch of a revoked grant that was not submitted is released; any other unsubmitted one
      is executed; a submitted one is looked up, and executed only if the payment is not found. */
  lemma VisitIs(b: Books, k: nat, v: Visit, now: int)
    requires Inv(b) && k < |b.batches|
    ensures var claimed := Step(b, DoClaim(k), now);
            && k < |claimed.batches| && claimed.batches[k].grant < |claimed.grants|
            && GoesOn(claimed, k, claimed.batches[k], b.nextLease, v, VisitOnce(b, k, v, now))
  {
    ClaimKeeps(b, k, now);
    var claimed := Claim(b, k, now);
    assert claimed == Step(b, DoClaim(k), now);
    assert BatchOk(claimed.batches[k], k, claimed.grants, claimed.events);
    ServeGoesSo(claimed, k, claimed.batches[k], b.nextLease, v);
  }

  /** The loop takes the earliest due batch each turn, and goes on until none is due or its visits are used up. */
  lemma LoopIs(b: Books, visits: seq<Visit>, now: int)
    requires Inv(b)
    ensures var k := Earliest(b.batches, now);
            if visits == [] || k.None? then Work(b, visits, now) == (b, [])
            else
              var (served, outcome) := VisitOnce(b, k.value, visits[0], now);
              Work(b, visits, now) == (Work(served, visits[1..], now).0, [outcome] + Work(served, visits[1..], now).1)
  {
    var k := Earliest(b.batches, now);
    if visits != [] && k.Some? {
      VisitKeeps(b, visits[0], now);
    }
  }
}
