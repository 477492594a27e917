/** Replacement chains and coin exclusivity over every run of the stored Bitcoin payment requests. */
module PsbtChains {
  import opened Wrappers
  import opened Tallies
  import opened Psbt
  import opened PsbtRecords

  function ChangeSats(r: Record): nat {
    if r.change.Some? then r.change.value.sats else 0
  }

  /** The estimated size of a record's transaction with a change output. */
  function SizeWithChange(r: Record): (size: nat)
    ensures size >= 11
  {
    EstimateVbytes(r.inputs, [r.recipient.script, r.request.changeTo.script])
  }

  /** A record's own plan: value is conserved, change is not dust, the fee is within the review, covers the rate for the
      size with change, and gives up less than the dust limit beyond that, nothing if there is change. */
  ghost predicate PlanOk(r: Record) {
    && Tally(r.inputs, SatsOf()) == r.amount + r.fee + ChangeSats(r)
    && (r.change.Some? ==> r.change.value.sats >= DUST_SATS && r.change.value.address == r.request.changeTo) && r.fee <= r.maxFee
    && r.amount >= DUST_SATS && 1 <= r.rate <= MAX_FEE_RATE && r.inputs != []
    && r.request.changeTo.script != r.recipient.script
    && SizeWithChange(r) * r.rate <= r.fee < SizeWithChange(r) * r.rate + DUST_SATS
    && (r.change.Some? ==> r.fee == SizeWithChange(r) * r.rate)
  }

  /** A replacement pays the same recipient from the same coins, at a higher rate and a higher fee; only a record
      with change is ever replaced, and the replacement's change would go to the same address. */
  ghost predicate Raises(p: Record, r: Record) {
    && r.inputs == p.inputs && r.recipient == p.recipient && r.amount == p.amount && r.network == p.network
    && r.owner == p.owner && r.rate > p.rate && r.fee > p.fee
    && p.change.Some? && r.request.changeTo == p.change.value.address
  }

  ghost predicate RecordOk(records: seq<Record>, i: nat)
    requires i < |records|
  {
    && PlanOk(records[i])
    && records[i].request.original == records[i].original && records[i].request.owner == records[i].owner
    && (records[i].original.Some? ==>
          records[i].original.value < i && Raises(records[records[i].original.value], records[i]))
  }

  ghost predicate Overlap(r: Record, s: Record) {
    exists o: Outpoint :: Spends(r, o) && Spends(s, o)
  }

  /** Two active records that share a coin are an original and its replacement. */
  ghost predicate PairOk(records: seq<Record>, i: nat, j: nat)
    requires i < j < |records|
  {
    IsActive(records[i].status) && IsActive(records[j].status) && Overlap(records[i], records[j]) ==>
      records[j].original == Some(i)
  }

  ghost predicate UniqueKeys(records: seq<Record>) {
    forall i, j :: 0 <= i < j < |records| ==> !(records[i].owner == records[j].owner && records[i].key == records[j].key)
  }

  /** Every record has its own valid plan, every replacement raises its original, and keys are unique. */
  ghost predicate Chained(records: seq<Record>) {
    (forall i :: 0 <= i < |records| ==> RecordOk(records, i)) && UniqueKeys(records)
  }

  /** No coin is spent by two active records, an original and its replacement apart. */
  ghost predicate Exclusive(records: seq<Record>) {
    forall i, j :: 0 <= i < j < |records| ==> PairOk(records, i, j)
  }

  ghost predicate Inv(records: seq<Record>) {
    Chained(records) && Exclusive(records)
  }

  /** What no step changes about a record, and the statuses it never leaves or returns to. */
  ghost predicate Persists(r: Record, later: Record) {
    && later == r.(status := later.status, confirmations := later.confirmations, replacedBy := later.replacedBy)
    && (!IsActive(r.status) ==> later == r)
    && (IsActive(later.status) ==> IsActive(r.status))
    && (later.status == AwaitingSignature ==> r.status == AwaitingSignature)
  }

  ghost predicate AllPersist(records: seq<Record>, later: seq<Record>) {
    |records| <= |later| && forall i :: 0 <= i < |records| ==> Persists(records[i], later[i])
  }

  lemma OverlapKept(r: Record, s: Record, laterR: Record, laterS: Record)
    requires Persists(r, laterR) && Persists(s, laterS) && Overlap(laterR, laterS)
    ensures Overlap(r, s)
  {
    var o :| Spends(laterR, o) && Spends(laterS, o);
    assert Spends(r, o) && Spends(s, o);
  }

  lemma StatusStepChained(records: seq<Record>, later: seq<Record>)
    requires Chained(records) && AllPersist(records, later) && |later| == |records|
    ensures Chained(later)
  {
    forall i | 0 <= i < |later| ensures RecordOk(later, i) {
      assert RecordOk(records, i) && Persists(records[i], later[i]);
      if later[i].original.Some? {
        assert Persists(records[later[i].original.value], later[later[i].original.value]);
      }
    }
    forall i, j | 0 <= i < j < |later| ensures !(later[i].owner == later[j].owner && later[i].key == later[j].key) {
      assert Persists(records[i], later[i]) && Persists(records[j], later[j]);
    }
  }

  lemma StatusStepExclusive(records: seq<Record>, later: seq<Record>)
    requires Exclusive(records) && AllPersist(records, later) && |later| == |records|
    ensures Exclusive(later)
  {
    forall i, j | 0 <= i < j < |later| ensures PairOk(later, i, j) {
      assert PairOk(records, i, j) && Persists(records[i], later[i]) && Persists(records[j], later[j]);
      if IsActive(later[i].status) && IsActive(later[j].status) && Overlap(later[i], later[j]) {
        OverlapKept(records[i], records[j], later[i], later[j]);
      }
    }
  }

  /** Steps that only move statuses forward keep the invariant. */
  lemma StatusStepKeeps(records: seq<Record>, later: seq<Record>)
    requires Inv(records) && AllPersist(records, later) && |later| == |records|
    ensures Inv(later)
  {
    StatusStepChained(records, later);
    StatusStepExclusive(records, later);
  }

  /** What a record must bring to be stored: its own plan, and to raise the original it names. */
  ghost predicate Fits(records: seq<Record>, r: Record) {
    && PlanOk(r) && r.request.original == r.original && r.request.owner == r.owner
    && (r.original.Some? ==> r.original.value < |records| && Raises(records[r.original.value], r))
  }

  lemma AddRecordChained(records: seq<Record>, r: Record)
    requires Chained(records) && Fits(records, r) && FindKey(records, r.owner, r.key).None?
    ensures Chained(records + [r])
  {
    var later := records + [r];
    forall i | 0 <= i < |later| ensures RecordOk(later, i) {
      assert i < |records| ==> RecordOk(records, i);
    }
  }

  lemma AddRecordExclusive(records: seq<Record>, r: Record)
    requires Exclusive(records) && !InUse(records, r.inputs, r.original)
    ensures Exclusive(records + [r])
  {
    var later := records + [r];
    forall i, j | 0 <= i < j < |later| ensures PairOk(later, i, j) {
      if j < |records| {
        assert PairOk(records, i, j);
      } else if IsActive(records[i].status) && Overlap(records[i], r) {
        OverlapIsSharing(records[i], r);
      }
    }
  }

  lemma OverlapIsSharing(s: Record, r: Record)
    requires Overlap(s, r)
    ensures SharesInput(s, r.inputs)
  {
    var o :| Spends(s, o) && Spends(r, o);
    var i :| 0 <= i < |r.inputs| && r.inputs[i].outpoint == o;
    assert Spends(s, r.inputs[i].outpoint);
  }

  /** The record a creation stores brings what it must and accounts for its coins. */
  lemma CreatedRecord(records: seq<Record>, q: Request, ready: bool, resolved: Result<seq<Coin>, PsbtError>)
    requires Chained(records) && Answers(DoCreate(q, ready, resolved)) && Create(records, q, ready, resolved).Ok?
    requires FindKey(records, q.owner, q.key).None?
    ensures var later := Create(records, q, ready, resolved).value.0;
            && |later| == |records| + 1 && later[..|records|] == records
            && var r := later[|records|];
               && Fits(records, r) && r.owner == q.owner && r.key == q.key && r.status == AwaitingSignature
               && !InUse(records, r.inputs, r.original)
  {
    var inputs := Resolve(records, q, resolved).value;
    PlanProperties(inputs, q.amount, q.recipient.script, q.changeTo.script, q.rate, q.maxFee);
    if q.original.Some? {
      assert RecordOk(records, q.original.value);
    }
  }

  lemma CreateChained(records: seq<Record>, q: Request, ready: bool, resolved: Result<seq<Coin>, PsbtError>)
    requires Chained(records) && Answers(DoCreate(q, ready, resolved)) && Create(records, q, ready, resolved).Ok?
    ensures var later := Create(records, q, ready, resolved).value.0;
            && Chained(later) && AllPersist(records, later) && (Exclusive(records) ==> Exclusive(later))
  {
    if FindKey(records, q.owner, q.key).None? {
      CreatedRecord(records, q, ready, resolved);
      var later := Create(records, q, ready, resolved).value.0;
      assert later == records + [later[|records|]];
      AddRecordChained(records, later[|records|]);
      if Exclusive(records) {
        AddRecordExclusive(records, later[|records|]);
      }
    }
  }

  lemma CreateKeeps(records: seq<Record>, q: Request, ready: bool, resolved: Result<seq<Coin>, PsbtError>)
    requires Inv(records) && Answers(DoCreate(q, ready, resolved)) && Create(records, q, ready, resolved).Ok?
    ensures Inv(Create(records, q, ready, resolved).value.0)
    ensures AllPersist(records, Create(records, q, ready, resolved).value.0)
  {
    CreateChained(records, q, ready, resolved);
  }

  /** Every step keeps plans, chains and keys, and exclusivity where there is any. */
  lemma StepChained(records: seq<Record>, op: Op)
    requires Chained(records)
    ensures Chained(Step(records, op)) && AllPersist(records, Step(records, op))
    ensures Exclusive(records) ==> Exclusive(Step(records, op))
  {
    match op
    case DoCreate(q, ready, resolved) =>
      if Answers(op) && Create(records, q, ready, resolved).Ok? {
        CreateChained(records, q, ready, resolved);
      }
    case _ =>
      StatusStepChained(records, Step(records, op));
      if Exclusive(records) {
        StatusStepExclusive(records, Step(records, op));
      }
  }

  lemma StepKeeps(records: seq<Record>, op: Op)
    requires Inv(records)
    ensures Inv(Step(records, op)) && AllPersist(records, Step(records, op))
  {
    StepChained(records, op);
  }

  /** Over every run the invariant holds, reviewed terms never change, and a record that left the active statuses
      never changes again. */
  lemma {:induction false} RunKeeps(records: seq<Record>, ops: seq<Op>)
    requires Inv(records)
    ensures Inv(Run(records, ops)) && AllPersist(records, Run(records, ops))
  {
    if ops != [] {
      var before := Run(records, ops[..|ops| - 1]);
      RunKeeps(records, ops[..|ops| - 1]);
      StepKeeps(before, ops[|ops| - 1]);
      forall i | 0 <= i < |records| ensures Persists(records[i], Run(records, ops)[i]) {
        assert Persists(records[i], before[i]) && Persists(before[i], Run(records, ops)[i]);
      }
    }
  }

  // Chains.

  /** How many replacements lead to a record, and the original they start from. */
  ghost function Chain(records: seq<Record>, i: nat): (r: (nat, nat))
    requires i < |records| && Chained(records)
    ensures r.1 <= i
  {
    assert RecordOk(records, i);
    if records[i].original.None? then (0, i)
    else
      var (length, first) := Chain(records, records[i].original.value);
      (length + 1, first)
  }

  lemma HigherRate(size: nat, rate: nat, higher: nat)
    requires rate < higher
    ensures size * higher >= size * rate + size
  {
    assert size * higher == size * rate + size * (higher - rate);
    assert size * (higher - rate) == size + size * (higher - rate - 1);
  }

  lemma LinkRaises(p: Record, r: Record)
    requires PlanOk(p) && PlanOk(r) && Raises(p, r)
    ensures SizeWithChange(r) == SizeWithChange(p) && r.fee >= p.fee + SizeWithChange(p)
  {
    HigherRate(SizeWithChange(p), p.rate, r.rate);
  }

  /** What a chain of so many replacements keeps and raises. */
  ghost predicate Raised(p: Record, length: nat, r: Record) {
    && r.inputs == p.inputs && r.recipient == p.recipient && r.amount == p.amount && r.network == p.network
    && SizeWithChange(r) == SizeWithChange(p)
    && r.fee >= p.fee + length * SizeWithChange(p) && r.rate >= p.rate + length
  }

  lemma RaisedOnce(p: Record, length: nat, o: Record, r: Record)
    requires PlanOk(o) && PlanOk(r) && Raised(p, length, o) && Raises(o, r)
    ensures Raised(p, length + 1, r)
  {
    LinkRaises(o, r);
    var size := SizeWithChange(p);
    assert (length + 1) * size == length * size + size;
  }

  lemma {:induction false} ChainKeeps(records: seq<Record>, i: nat)
    requires Chained(records) && i < |records|
    ensures var (length, first) := Chain(records, i);
            records[first].original.None? && Raised(records[first], length, records[i])
  {
    assert RecordOk(records, i);
    if records[i].original.Some? {
      var o := records[i].original.value;
      ChainKeeps(records, o);
      assert RecordOk(records, o);
      RaisedOnce(records[Chain(records, o).1], Chain(records, o).0, records[o], records[i]);
    }
  }

  lemma RaisedIsBounded(p: Record, length: nat, r: Record)
    requires PlanOk(p) && PlanOk(r) && Raised(p, length, r)
    ensures length * SizeWithChange(p) + p.amount + p.fee <= Tally(p.inputs, SatsOf()) && length < MAX_FEE_RATE
  {}

  /** Along a chain of replacements inputs, recipient, amount and network stay, every link raises the rate, and raises
      the fee by at least the size of the transaction; so the chain is at most as long as that size goes into what the
      original left after amount and fee, and at most the range of rates. */
  lemma ChainRaises(records: seq<Record>, i: nat)
    requires Chained(records) && i < |records|
    ensures var (length, first) := Chain(records, i);
            var r, p := records[i], records[first];
            && p.original.None? && Raised(p, length, r)
            && length * SizeWithChange(p) + p.amount + p.fee <= Tally(p.inputs, SatsOf()) && length < MAX_FEE_RATE
  {
    ChainKeeps(records, i);
    var (length, first) := Chain(records, i);
    assert RecordOk(records, i) && RecordOk(records, first);
    RaisedIsBounded(records[first], length, records[i]);
  }

  /** A request that was created, now or before, names its own original if it names any. */
  lemma CreatedIsOwned(records: seq<Record>, q: Request, ready: bool, resolved: Result<seq<Coin>, PsbtError>)
    requires Inv(records) && Create(records, q, ready, resolved).Ok?
    ensures Wanted(records, q).Ok? && CheckRequest(q).Ok?
    ensures q.original.Some? ==> IsOwned(records, q.original.value, q.owner)
  {
    var found := FindKey(records, q.owner, q.key);
    if found.Some? {
      assert RecordOk(records, found.value);
    }
  }

  lemma CreatedIsStored(records: seq<Record>, q: Request, ready: bool, resolved: Result<seq<Coin>, PsbtError>)
    requires Create(records, q, ready, resolved).Ok? && Wanted(records, q).Ok?
    ensures var (later, k) := Create(records, q, ready, resolved).value;
            k < |later| && later[k].owner == q.owner && later[k].key == q.key
            && later[k].request == q.(outpoints := Wanted(records, q).value)
  {}

  lemma StoredReplays(t: seq<Record>, q: Request, k: nat, ready: bool, resolved: Result<seq<Coin>, PsbtError>)
    requires UniqueKeys(t) && k < |t| && t[k].owner == q.owner && t[k].key == q.key && CheckRequest(q).Ok?
    requires Wanted(t, q).Ok? && t[k].request == q.(outpoints := Wanted(t, q).value)
    ensures Create(t, q, ready, resolved) == Ok((t, k))
  {
    assert FindKey(t, q.owner, q.key) == Some(k);
  }

  lemma WantedKept(records: seq<Record>, t: seq<Record>, q: Request)
    requires AllPersist(records, t) && (q.original.Some? ==> IsOwned(records, q.original.value, q.owner))
    ensures Wanted(t, q) == Wanted(records, q)
  {
    if q.original.Some? {
      assert Persists(records[q.original.value], t[q.original.value]);
    }
  }

  /** A request is created once: creating it again returns the stored record unchanged, after any run. */
  lemma CreateReplays(records: seq<Record>, q: Request, ready: bool, resolved: Result<seq<Coin>, PsbtError>,
                      ops: seq<Op>, again: bool, resolvedAgain: Result<seq<Coin>, PsbtError>)
    requires Inv(records) && Answers(DoCreate(q, ready, resolved)) && Create(records, q, ready, resolved).Ok?
    ensures var (later, k) := Create(records, q, ready, resolved).value;
            var t := Run(later, ops);
            Create(t, q, again, resolvedAgain) == Ok((t, k))
  {
    var (later, k) := Create(records, q, ready, resolved).value;
    CreateKeeps(records, q, ready, resolved);
    CreatedIsOwned(records, q, ready, resolved);
    CreatedIsStored(records, q, ready, resolved);
    RunKeeps(later, ops);
    var t := Run(later, ops);
    assert Persists(later[k], t[k]);
    WantedKept(records, later, q);
    WantedKept(later, t, q);
    StoredReplays(t, q, k, again, resolvedAgain);
  }
}
