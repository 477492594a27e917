/** The stored Bitcoin payment requests, updated in place by creation, submission, reconciliation and abandonment.
    What the wallet and the node answer are parameters. */
module PsbtStores {
  import opened Wrappers
  import opened Tallies
  import opened Psbt
  import opened PsbtRecords
  import opened PsbtChains
  import opened PsbtRaces

  /** What the signed request and the node report: whether it still matches the review, whether it is fully signed,
      the final transaction, whether the node would accept it, and whether sending it was confirmed. */
  datatype Signed = Signed(matches: bool, complete: bool, tx: Transaction, accepted: bool, sent: bool)

  datatype SubmitError = UnknownPsbt | SignedMutated | SignatureIncomplete | FinalMutated | MempoolRejected

  /** The outputs a record was reviewed with. */
  function Reviewed(r: Record): seq<Output> {
    Outputs(r.amount, r.recipient.script, Plan(r.fee, ChangeSats(r)),
            if r.change.Some? then r.change.value.address.script else "")
  }

  function CheckSigned(r: Record, signed: Signed): (c: Result<(), SubmitError>) {
    var _ :- Check(signed.matches, SignedMutated);
    var _ :- Check(signed.complete, SignatureIncomplete);
    var _ :- Check(CheckFinal(r.inputs, Reviewed(r), r.fee, signed.tx).Ok?, FinalMutated);
    Ok(())
  }

  /** What taking over the node's report leaves: nothing changes unless the record is out on the network. */
  function Reconciled(records: seq<Record>, i: nat, confirmations: nat, observed: bool): seq<Record>
    requires i < |records|
  {
    if !IsBroadcast(records[i].status) then records
    else if observed then MarkOriginal(Reconcile(records, i, confirmations), i)
    else Reconcile(records, i, confirmations)
  }

  /** What every method keeps: plans, chains, keys and reviewed terms always, exclusivity where there was any. */
  ghost predicate Keeps(records: seq<Record>, later: seq<Record>) {
    (Chained(records) ==> Chained(later) && AllPersist(records, later)) && (Inv(records) ==> Inv(later))
  }

  lemma KeepsThen(records: seq<Record>, middle: seq<Record>, later: seq<Record>)
    requires Keeps(records, middle) && Keeps(middle, later)
    ensures Keeps(records, later)
  {
    if Chained(records) {
      PersistsThen(records, middle, later);
    }
  }

  lemma StatusKeeps(records: seq<Record>, later: seq<Record>)
    requires |later| == |records| && AllPersist(records, later)
    ensures Keeps(records, later)
  {
    if Chained(records) {
      StatusStepChained(records, later);
    }
    if Inv(records) {
      StatusStepKeeps(records, later);
    }
  }

  lemma {:induction false} RunStays(records: seq<Record>, ops: seq<Op>)
    ensures Keeps(records, Run(records, ops))
  {
    if ops == [] {
      StatusKeeps(records, records);
    } else {
      var before := Run(records, ops[..|ops| - 1]);
      RunStays(records, ops[..|ops| - 1]);
      if Chained(before) {
        StepChained(before, ops[|ops| - 1]);
      }
      KeepsThen(records, before, Run(records, ops));
    }
  }

  lemma ThenMarked(records: seq<Record>, later: seq<Record>, i: nat)
    requires |later| == |records| && AllPersist(records, later)
    ensures Keeps(records, later) && Keeps(records, MarkOriginal(later, i))
  {
    StatusKeeps(records, later);
    StatusKeeps(later, MarkOriginal(later, i));
    KeepsThen(records, later, MarkOriginal(later, i));
  }

  class PsbtStore {
    var records: seq<Record>

    constructor ()
      ensures records == [] && Inv(records)
    {
      records := [];
    }

    /** The position of a conflicting active record, or -1. */
    method FindConflict(inputs: seq<Coin>, original: Option<nat>) returns (conflict: int)
      ensures -1 <= conflict < |records|
      ensures conflict >= 0 <==> InUse(records, inputs, original)
    {
      conflict := |records| - 1;
      while conflict >= 0 && !(original != Some(conflict) && IsActive(records[conflict].status)
                               && SharesInput(records[conflict], inputs))
        invariant -1 <= conflict < |records|
        invariant forall j :: conflict < j < |records| ==>
                                !(original != Some(j) && IsActive(records[j].status) && SharesInput(records[j], inputs))
      {
        conflict := conflict - 1;
      }
    }

    /** `meanwhile` is what other calls do between the reads and the insert. */
    method CreateBitcoinPsbt(q: Request, ready: bool, resolved: Result<seq<Coin>, PsbtError>, meanwhile: seq<Op>)
      returns (r: Result<nat, PsbtError>)
      modifies this
      ensures var draft := Draft(old(records), q, ready, resolved);
              if draft.None? then
                && records == old(records)
                && r == match Create(old(records), q, ready, resolved) case Ok(done) => Ok(done.1) case Err(e) => Err(e)
              else
                var stored := Run(old(records), meanwhile);
                && records == Inserted(stored, draft.value)
                && r == match Insert(stored, draft.value) case Ok(done) => Ok(done.1) case Err(e) => Err(e)
      ensures old(Chained(records)) && Answers(DoCreate(q, ready, resolved)) ==> Chained(records)
      ensures var draft := Draft(old(records), q, ready, resolved);
              (&& old(Inv(records)) && Answers(DoCreate(q, ready, resolved))
               && (draft.Some? ==> !Clashes(Run(old(records), meanwhile), draft.value))) ==>
                Inv(records)
    {
      var _ :- CheckRequest(q);
      var outpoints :- Wanted(records, q);
      var existing := FindKey(records, q.owner, q.key);
      if existing.Some? {
        if records[existing.value].request != q.(outpoints := outpoints) {
          return Err(IdempotencyConflict);
        }
        return Ok(existing.value);
      }
      if !ready {
        return Err(CoreNotReady);
      }
      var inputs :- Resolve(records, q, resolved);
      var conflict := FindConflict(inputs, q.original);
      if conflict >= 0 {
        return Err(InputAlreadyInUse);
      }
      var planned := PlanFee(inputs, q.amount, q.recipient.script, q.changeTo.script, q.rate, q.maxFee);
      var plan :- Planned(planned);
      if q.original.Some? && plan.fee <= records[q.original.value].fee {
        return Err(ReplacementFeeTooLow);
      }
      var record := NewRecord(q, q.(outpoints := outpoints), inputs, plan);
      r := InsertRecord(q, ready, resolved, record, meanwhile);
    }

    /** The insert of a drafted record: the owner's key decides between a new record, a replay and a conflict. */
    method InsertRecord(ghost q: Request, ghost ready: bool, ghost resolved: Result<seq<Coin>, PsbtError>, record: Record,
                        meanwhile: seq<Op>)
      returns (r: Result<nat, PsbtError>)
      requires Draft(records, q, ready, resolved) == Some(record)
      modifies this
      ensures var stored := Run(old(records), meanwhile);
              && records == Inserted(stored, record)
              && r == match Insert(stored, record) case Ok(done) => Ok(done.1) case Err(e) => Err(e)
      ensures old(Chained(records)) && Answers(DoCreate(q, ready, resolved)) ==> Chained(records)
      ensures (&& old(Inv(records)) && Answers(DoCreate(q, ready, resolved))
               && !Clashes(Run(old(records), meanwhile), record)) ==>
                Inv(records)
    {
      RunStays(records, meanwhile);
      if Chained(records) && Answers(DoCreate(q, ready, resolved)) {
        CreatedRecord(records, q, ready, resolved);
        StillFits(records, Run(records, meanwhile), record);
        InsertStep(Run(records, meanwhile), record);
      }
      records := Run(records, meanwhile);
      var raced := FindKey(records, record.owner, record.key);
      if raced.None? {
        records := records + [record];
        return Ok(|records| - 1);
      }
      if records[raced.value].request != record.request {
        return Err(IdempotencyConflict);
      }
      return Ok(raced.value);
    }

    /** Marks the original of record `i` replaced, if the network had it. */
    method MarkReplaced(i: nat)
      requires i < |records|
      modifies this
      ensures records == MarkOriginal(old(records), i)
    {
      if records[i].original.Some? {
        var p := records[i].original.value;
        if p < |records| && records[p].owner == records[i].owner
           && (records[p].status == Broadcast || records[p].status == Confirming)
        {
          var original := records[p];
          original := original.(status := Replaced);
          original := original.(replacedBy := Some(i));
          records := records[p := original];
        }
      }
    }

    /** Submits a signed request; one past its signature is reconciled instead, and so is one that another call took on
        while this one was checked (`meanwhile`). It is broadcast exactly when it still awaits its signature and
        everything matches, and what is broadcast is the reviewed transaction, paying the reviewed fee within the
        reviewed limit. */
    method SubmitSignedBitcoinPsbt(i: nat, owner: nat, signed: Signed, meanwhile: seq<Op>, confirmations: nat, observed: bool)
      returns (r: Result<Status, SubmitError>)
      requires Chained(records)
      modifies this
      ensures Keeps(old(records), records)
      ensures r.Ok? <==> IsOwned(old(records), i, owner)
                         && (old(records)[i].status == AwaitingSignature ==>
                               CheckSigned(old(records)[i], signed).Ok? && signed.accepted)
      ensures r.Ok? ==> i < |records| && r.value == records[i].status
      ensures if !IsOwned(old(records), i, owner) then records == old(records)
              else if old(records)[i].status != AwaitingSignature
              then records == Reconciled(old(records), i, confirmations, observed)
              else if CheckSigned(old(records)[i], signed).Err? then records == old(records)
              else
                var stored := Run(old(records), meanwhile);
                && i < |stored|
                && records == if signed.accepted && stored[i].status != AwaitingSignature
                              then Reconciled(stored, i, confirmations, observed)
                              else if signed.accepted && signed.sent then MarkOriginal(ClaimBroadcast(stored, i, true), i)
                              else ClaimBroadcast(stored, i, signed.accepted)
      ensures r.Ok? && old(records)[i].status == AwaitingSignature ==>
                var record := old(records)[i];
                && SpendsReviewed(signed.tx.ins, record.inputs) && signed.tx.outs == Reviewed(record)
                && Tally(record.inputs, SatsOf()) - Tally(signed.tx.outs, OutputSats()) == record.fee <= record.maxFee
    {
      if i >= |records| || records[i].owner != owner {
        StatusKeeps(records, records);
        return Err(UnknownPsbt);
      }
      if records[i].status != AwaitingSignature {
        var reconciled := ReconcileBitcoinPsbt(i, owner, confirmations, observed);
        return Ok(reconciled.value);
      }
      assert RecordOk(records, i);
      StatusKeeps(records, records);
      var _ :- CheckSigned(records[i], signed);
      r := ClaimSigned(i, owner, signed, meanwhile, confirmations, observed);
    }

    /** The claim of a checked request, after whatever happened meanwhile. */
    method ClaimSigned(i: nat, owner: nat, signed: Signed, meanwhile: seq<Op>, confirmations: nat, observed: bool)
      returns (r: Result<Status, SubmitError>)
      requires Chained(records) && IsOwned(records, i, owner)
      modifies this
      ensures Keeps(old(records), records)
      ensures r.Ok? <==> signed.accepted
      ensures r.Ok? ==> i < |records| && r.value == records[i].status
      ensures var stored := Run(old(records), meanwhile);
              && i < |stored|
              && records == if signed.accepted && stored[i].status != AwaitingSignature
                            then Reconciled(stored, i, confirmations, observed)
                            else if signed.accepted && signed.sent then MarkOriginal(ClaimBroadcast(stored, i, true), i)
                            else ClaimBroadcast(stored, i, signed.accepted)
    {
      ghost var before, stored := records, Run(records, meanwhile);
      RunStays(records, meanwhile);
      assert Persists(before[i], stored[i]) && RecordOk(stored, i);
      ThenMarked(stored, ClaimBroadcast(stored, i, signed.accepted), i);
      KeepsThen(before, stored, ClaimBroadcast(stored, i, signed.accepted));
      KeepsThen(before, stored, MarkOriginal(ClaimBroadcast(stored, i, signed.accepted), i));
      records := Run(records, meanwhile);
      if !signed.accepted {
        if records[i].status == AwaitingSignature {
          records := records[i := records[i].(status := Failed)];
        }
        return Err(MempoolRejected);
      }
      if records[i].status != AwaitingSignature {
        var reconciled := ReconcileBitcoinPsbt(i, owner, confirmations, observed);
        KeepsThen(before, stored, records);
        return Ok(reconciled.value);
      }
      records := records[i := records[i].(status := Broadcast)];
      if signed.sent {
        MarkReplaced(i);
      }
      return Ok(Broadcast);
    }

    /** Takes over what the node reports of a broadcast record; seen on the network, a replacement retires its original. */
    method ReconcileBitcoinPsbt(i: nat, owner: nat, confirmations: nat, observed: bool) returns (r: Result<Status, PsbtError>)
      requires Chained(records)
      modifies this
      ensures Keeps(old(records), records)
      ensures !IsOwned(old(records), i, owner) <==> r.Err?
      ensures r.Ok? ==> i < |records| && r.value == records[i].status
      ensures records == if IsOwned(old(records), i, owner) then Reconciled(old(records), i, confirmations, observed)
                         else old(records)
    {
      StatusKeeps(records, records);
      if i >= |records| || records[i].owner != owner {
        return Err(NotFound);
      }
      if records[i].status != Broadcast && records[i].status != Confirming {
        return Ok(records[i].status);
      }
      ThenMarked(records, Reconcile(records, i, confirmations), i);
      assert RecordOk(records, i);
      var record := records[i];
      record := record.(status := if confirmations >= record.required then Confirmed
                                  else if confirmations > 0 then Confirming else Broadcast);
      record := record.(confirmations := confirmations);
      records := records[i := record];
      if observed {
        MarkReplaced(i);
      }
      return Ok(record.status);
    }

    method AbandonBitcoinPsbt(i: nat, owner: nat) returns (r: Result<(), PsbtError>)
      modifies this
      ensures Keeps(old(records), records)
      ensures r.Ok? <==> IsOwned(old(records), i, owner) && old(records)[i].status == AwaitingSignature
      ensures records == if r.Ok? then SetStatus(old(records), i, Abandoned) else old(records)
    {
      StatusKeeps(records, records);
      if i >= |records| || records[i].owner != owner || records[i].status != AwaitingSignature {
        return Err(AbandonNotAllowed);
      }
      StatusKeeps(records, SetStatus(records, i, Abandoned));
      records := records[i := records[i].(status := Abandoned)];
      return Ok(());
    }
  }
}
