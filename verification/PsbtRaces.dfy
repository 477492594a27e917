/** Creations read the stored requests and insert later, outside a transaction (src/services/bitcoinPsbt.service.ts,
    createBitcoinPsbt); only the owner's key is unique in the collection (src/models/bitcoin.model.ts). Anything may
    happen between the reads and the insert. */
module PsbtRaces {
  import opened Wrappers
  import opened Tallies
  import opened Psbt
  import opened PsbtRecords
  import opened PsbtChains

  /** The record a creation wants to insert after reading `records`, when it replays nothing and nothing refuses it. */
  function Draft(records: seq<Record>, q: Request, ready: bool, resolved: Result<seq<Coin>, PsbtError>): Option<Record> {
    if FindKey(records, q.owner, q.key).None? && Create(records, q, ready, resolved).Ok?
    then Some(Create(records, q, ready, resolved).value.0[|records|]) else None
  }

  /** The insert: if the owner's key was taken meanwhile, the stored record is replayed or the key is in conflict. */
  function Insert(stored: seq<Record>, r: Record): (outcome: Result<(seq<Record>, nat), PsbtError>) {
    match FindKey(stored, r.owner, r.key)
    case Some(k) => if stored[k].request == r.request then Ok((stored, k)) else Err(IdempotencyConflict)
    case None => Ok((stored + [r], |stored|))
  }

  function Inserted(stored: seq<Record>, r: Record): seq<Record> {
    if Insert(stored, r).Ok? then Insert(stored, r).value.0 else stored
  }

  /** If nothing happened in between, reading and inserting are the one atomic creation. */
  lemma UnracedIsAtomic(records: seq<Record>, q: Request, ready: bool, resolved: Result<seq<Coin>, PsbtError>)
    requires Draft(records, q, ready, resolved).Some?
    ensures Insert(records, Draft(records, q, ready, resolved).value) == Create(records, q, ready, resolved)
  {
    var r := Draft(records, q, ready, resolved).value;
    assert r.owner == q.owner && r.key == q.key;
  }

  lemma SharingIsOverlap(s: Record, r: Record)
    requires SharesInput(s, r.inputs)
    ensures Overlap(s, r)
  {
    var i :| 0 <= i < |r.inputs| && Spends(s, r.inputs[i].outpoint);
    assert Spends(r, r.inputs[i].outpoint);
  }

  /** A shared coin that the insert does not account for breaks exclusivity. */
  lemma InUseBreaks(stored: seq<Record>, r: Record)
    requires InUse(stored, r.inputs, r.original) && IsActive(r.status)
    ensures !Exclusive(stored + [r])
  {
    var j :| 0 <= j < |stored| && r.original != Some(j) && IsActive(stored[j].status) && SharesInput(stored[j], r.inputs);
    var later := stored + [r];
    SharingIsOverlap(stored[j], r);
    assert later[j] == stored[j] && later[|stored|] == r;
    assert !PairOk(later, j, |stored|);
  }

  /** What was read fits whatever is stored later: reviewed terms never change. */
  lemma StillFits(records: seq<Record>, stored: seq<Record>, r: Record)
    requires AllPersist(records, stored) && Fits(records, r)
    ensures Fits(stored, r)
  {
    if r.original.Some? {
      assert Persists(records[r.original.value], stored[r.original.value]);
    }
  }

  /** The insert clashes: its key is still free, but another active record now spends one of its coins. */
  predicate Clashes(stored: seq<Record>, r: Record) {
    FindKey(stored, r.owner, r.key).None? && InUse(stored, r.inputs, r.original)
  }

  lemma InsertStep(stored: seq<Record>, r: Record)
    requires Chained(stored) && Fits(stored, r) && r.status == AwaitingSignature
    ensures Chained(Inserted(stored, r)) && AllPersist(stored, Inserted(stored, r))
    ensures Exclusive(stored) ==> (Exclusive(Inserted(stored, r)) <==> !Clashes(stored, r))
  {
    if FindKey(stored, r.owner, r.key).None? {
      AddRecordChained(stored, r);
      if InUse(stored, r.inputs, r.original) {
        InUseBreaks(stored, r);
      } else if Exclusive(stored) {
        AddRecordExclusive(stored, r);
      }
    }
  }

  /** Whatever happens between the reads and the insert, the insert keeps exclusivity, chains and unique keys if and
      only if its key was taken meanwhile or its coins are still in no other active record. */
  lemma InsertKeepsIff(records: seq<Record>, q: Request, ready: bool, resolved: Result<seq<Coin>, PsbtError>, ops: seq<Op>)
    requires Inv(records) && Answers(DoCreate(q, ready, resolved)) && Draft(records, q, ready, resolved).Some?
    ensures var r, stored := Draft(records, q, ready, resolved).value, Run(records, ops);
            Inv(Inserted(stored, r)) <==>
            FindKey(stored, r.owner, r.key).Some? || !InUse(stored, r.inputs, r.original)
  {
    var r, stored := Draft(records, q, ready, resolved).value, Run(records, ops);
    RunKeeps(records, ops);
    CreatedRecord(records, q, ready, resolved);
    StillFits(records, stored, r);
    InsertStep(stored, r);
  }

  // Whole runs with reads and inserts apart.

  /** A creation is a read and, at any later time, the insert of what it made of it. */
  datatype RacyOp =
    | Atomic(op: Op)
    | Read(request: Request, ready: bool, resolved: Result<seq<Coin>, PsbtError>)
    | Late(d: nat)

  datatype World = World(records: seq<Record>, drafts: seq<Record>)

  function RacyStep(w: World, op: RacyOp): World {
    match op
    case Atomic(step) => w.(records := Step(w.records, step))
    case Read(q, ready, resolved) =>
      var draft := Draft(w.records, q, ready, resolved);
      if Answers(DoCreate(q, ready, resolved)) && draft.Some? then w.(drafts := w.drafts + [draft.value]) else w
    case Late(d) => if d < |w.drafts| then w.(records := Inserted(w.records, w.drafts[d])) else w
  }

  function RacyRun(ops: seq<RacyOp>): World {
    if ops == [] then World([], []) else RacyStep(RacyRun(ops[..|ops| - 1]), ops[|ops| - 1])
  }

  ghost predicate DraftsFit(w: World) {
    forall d :: 0 <= d < |w.drafts| ==> Fits(w.records, w.drafts[d]) && w.drafts[d].status == AwaitingSignature
  }

  lemma DraftsStillFit(w: World, later: seq<Record>)
    requires DraftsFit(w) && AllPersist(w.records, later)
    ensures DraftsFit(w.(records := later))
  {
    forall d | 0 <= d < |w.drafts| ensures Fits(later, w.drafts[d]) {
      StillFits(w.records, later, w.drafts[d]);
    }
  }

  /** The late insert of this step puts a coin into two active records. */
  predicate Collides(w: World, op: RacyOp) {
    op.Late? && op.d < |w.drafts| && Clashes(w.records, w.drafts[op.d])
  }

  lemma RacyStepKeeps(w: World, op: RacyOp)
    requires Chained(w.records) && DraftsFit(w)
    ensures var later := RacyStep(w, op);
            && Chained(later.records) && DraftsFit(later) && AllPersist(w.records, later.records)
            && (Exclusive(w.records) ==> (Exclusive(later.records) <==> !Collides(w, op)))
  {
    match op
    case Atomic(step) =>
      StepChained(w.records, step);
      DraftsStillFit(w, Step(w.records, step));
    case Read(q, ready, resolved) =>
      if Answers(DoCreate(q, ready, resolved)) && Draft(w.records, q, ready, resolved).Some? {
        CreatedRecord(w.records, q, ready, resolved);
      }
    case Late(d) =>
      if d < |w.drafts| {
        InsertStep(w.records, w.drafts[d]);
        DraftsStillFit(w, Inserted(w.records, w.drafts[d]));
      }
  }

  /** However creations overlap, in every reachable collection each record has its own valid plan, each replacement
      raises its original, so chains are as short as ChainRaises says, and keys are unique. */
  lemma {:induction false} RacyRunChained(ops: seq<RacyOp>)
    ensures Chained(RacyRun(ops).records) && DraftsFit(RacyRun(ops))
  {
    if ops != [] {
      RacyRunChained(ops[..|ops| - 1]);
      RacyStepKeeps(RacyRun(ops[..|ops| - 1]), ops[|ops| - 1]);
    }
  }

  /** Coins are exclusive all along the run. */
  ghost predicate ExclusiveAlong(ops: seq<RacyOp>)
    decreases |ops|
  {
    Exclusive(RacyRun(ops).records) && (ops != [] ==> ExclusiveAlong(ops[..|ops| - 1]))
  }

  /** No late insert of the run collides. */
  predicate CollisionFree(ops: seq<RacyOp>) {
    ops != [] ==> !Collides(RacyRun(ops[..|ops| - 1]), ops[|ops| - 1]) && CollisionFree(ops[..|ops| - 1])
  }

  /** Exclusivity over whole runs: two active records that share a coin are an original and its replacement all along a
      run if and only if no insert of the run finds its key free and its coins taken since its read. */
  lemma {:induction false} ExclusiveAlongIff(ops: seq<RacyOp>)
    ensures ExclusiveAlong(ops) <==> CollisionFree(ops)
  {
    if ops != [] {
      var n := |ops| - 1;
      ExclusiveAlongIff(ops[..n]);
      RacyRunChained(ops[..n]);
      RacyStepKeeps(RacyRun(ops[..n]), ops[n]);
      assert ExclusiveAlong(ops[..n]) ==> Exclusive(RacyRun(ops[..n]).records);
    }
  }

  /** However creations overlap, reviewed terms never change along a run, and a record that left the active statuses
      never changes again. */
  lemma {:induction false} RacyRunPersists(ops: seq<RacyOp>, m: nat)
    requires m <= |ops|
    ensures AllPersist(RacyRun(ops[..m]).records, RacyRun(ops).records)
  {
    if m == |ops| {
      assert ops[..m] == ops;
    } else {
      var n := |ops| - 1;
      RacyRunPersists(ops[..n], m);
      assert ops[..n][..m] == ops[..m];
      RacyRunChained(ops[..n]);
      RacyStepKeeps(RacyRun(ops[..n]), ops[n]);
      PersistsThen(RacyRun(ops[..m]).records, RacyRun(ops[..n]).records, RacyRun(ops).records);
    }
  }

  lemma PersistsThen(records: seq<Record>, middle: seq<Record>, later: seq<Record>)
    requires AllPersist(records, middle) && AllPersist(middle, later)
    ensures AllPersist(records, later)
  {
    forall i | 0 <= i < |records| ensures Persists(records[i], later[i]) {
      assert Persists(records[i], middle[i]) && Persists(middle[i], later[i]);
    }
  }

  /** What that means for a coin: after a run without collisions two active records that spend it are an original and its
      replacement, and no three active records spend it. */
  lemma CoinsAreExclusive(ops: seq<RacyOp>, o: Outpoint, i: nat, j: nat, k: nat)
    requires CollisionFree(ops)
    ensures var t := RacyRun(ops).records;
            && (i < j < |t| && IsActive(t[i].status) && IsActive(t[j].status) && Spends(t[i], o) && Spends(t[j], o) ==>
                  t[j].original == Some(i))
            && !(i < j < k < |t| && IsActive(t[i].status) && IsActive(t[j].status) && IsActive(t[k].status)
                 && Spends(t[i], o) && Spends(t[j], o) && Spends(t[k], o))
  {
    ExclusiveAlongIff(ops);
    var t := RacyRun(ops).records;
    if i < j < |t| && Spends(t[i], o) && Spends(t[j], o) {
      assert PairOk(t, i, j) && Overlap(t[i], t[j]);
    }
    if i < j < k < |t| && Spends(t[i], o) && Spends(t[j], o) && Spends(t[k], o) {
      assert PairOk(t, i, k) && Overlap(t[i], t[k]);
      assert PairOk(t, j, k) && Overlap(t[j], t[k]);
    }
  }

  // A race.

  function RacingCoin(): Coin {
    Coin(Outpoint("00", 0), 10_000, "", P2wpkh)
  }

  function RacingRequest(key: string): Request {
    Request(0, key, Regtest, Address("recipient", "00"), 1_000, [Outpoint("00", 0)], Address("change", "11"), 1, 1_000, 0, 1, None)
  }

  function Pay(key: string): Op {
    DoCreate(RacingRequest(key), true, Ok([RacingCoin()]))
  }

  lemma RacingPlan()
    ensures MakePlan([RacingCoin()], 1_000, "00", "11", 1, 1_000) == Ok(Plan(99, 8_901))
  {
    TallyOne(RacingCoin(), SatsOf());
    TallyOne(RacingCoin(), InputVbytes());
    TallyTwo("00", "11", OutputVbytes());
    assert EstimateVbytes([RacingCoin()], ["00", "11"]) == 99;
  }

  lemma RacingCreate(key: string)
    ensures var q := RacingRequest(key);
            Create([], q, true, Ok([RacingCoin()]))
            == Ok(([NewRecord(q, q, [RacingCoin()], Plan(99, 8_901))], 0))
  {
    var q := RacingRequest(key);
    RacingPlan();
    assert CheckRequest(q) == Ok(()) && Wanted([], q) == Ok(q.outpoints);
    assert !InUse([], [RacingCoin()], None);
    var record := NewRecord(q, q, [RacingCoin()], Plan(99, 8_901));
    assert q.(outpoints := q.outpoints) == q;
    assert [] + [record] == [record];
  }

  lemma RacySnoc(ops: seq<RacyOp>, op: RacyOp)
    ensures RacyRun(ops + [op]) == RacyStep(RacyRun(ops), op)
  {
    assert (ops + [op])[..|ops|] == ops;
  }

  function SecondRead(): RacyOp {
    Read(RacingRequest("second"), true, Ok([RacingCoin()]))
  }

  /** The same coin twice: a second creation reads the empty collection, the first one runs, and then the second inserts
      too. Both records await their signatures and spend the coin. */
  lemma SameCoinTwice()
    ensures var t := RacyRun([SecondRead()] + [Atomic(Pay("first"))] + [Late(0)]).records;
            && |t| == 2 && t[0].status == t[1].status == AwaitingSignature
            && t[0].inputs == t[1].inputs == [RacingCoin()] && t[1].original == None && !Exclusive(t)
  {
    RacySnoc([], SecondRead());
    assert [] + [SecondRead()] == [SecondRead()];
    RacySnoc([SecondRead()], Atomic(Pay("first")));
    RacySnoc([SecondRead()] + [Atomic(Pay("first"))], Late(0));
    SecondReads();
    FirstPays([Stored("second")]);
    SecondInserts();
  }

  function Stored(key: string): Record {
    NewRecord(RacingRequest(key), RacingRequest(key), [RacingCoin()], Plan(99, 8_901))
  }

  lemma SecondReads()
    ensures RacyStep(World([], []), SecondRead()) == World([], [Stored("second")])
  {
    RacingCreate("second");
  }

  lemma FirstPays(drafts: seq<Record>)
    ensures RacyStep(World([], drafts), Atomic(Pay("first"))) == World([Stored("first")], drafts)
  {
    RacingCreate("first");
  }

  lemma SecondInserts()
    ensures var t := Inserted([Stored("first")], Stored("second"));
            t == [Stored("first"), Stored("second")] && !Exclusive(t)
  {
    var stored, r := [Stored("first")], Stored("second");
    assert FindKey(stored, r.owner, r.key).None?;
    assert Spends(stored[0], r.inputs[0].outpoint);
    InUseBreaks(stored, r);
  }
}
