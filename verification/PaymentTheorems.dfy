/** At-most-once execution for both providers, and what is final and proven for BTCPay, over every interleaving. */
module PaymentTheorems {
  import opened Wrappers
  import opened Money
  import opened Tallies
  import opened Payments

  function Executions(k: nat): nat -> nat {
    (j: nat) => if j == k then 1 else 0
  }

  function AboutToExecute(k: nat): Call -> nat {
    (c: Call) => if c.phase == Executing(k) then 1 else 0
  }

  ghost predicate DistinctPayments(payments: seq<Payment>) {
    forall i, j :: 0 <= i < j < |payments| ==>
                     !SameHash(payments[i].terms, payments[j].terms) && !SameKey(payments[i].terms, payments[j].terms)
  }

  /** A record is executed, or about to be, at most once. */
  ghost predicate OnceOk(s: System, k: nat) {
    Tally(s.executed, Executions(k)) + Tally(s.calls, AboutToExecute(k)) <= 1
  }

  ghost predicate PhaseOk(phase: Phase, payments: nat) {
    match phase
    case Executing(k) => k < payments
    case Answered(k, _) => k < payments
    case Reconciling(k) => k < payments
    case LookedUp(k, _) => k < payments
    case _ => true
  }

  ghost predicate Once(s: System) {
    && DistinctPayments(s.payments)
    && (forall k :: 0 <= k ==> OnceOk(s, k))
    && (forall c :: 0 <= c < |s.calls| ==> PhaseOk(s.calls[c].phase, |s.payments|))
    && (forall i :: 0 <= i < |s.executed| ==> s.executed[i] < |s.payments|)
  }

  /** Records are only ever added; their terms never change. */
  ghost predicate Extends(payments: seq<Payment>, later: seq<Payment>) {
    |payments| <= |later| && forall k :: 0 <= k < |payments| ==> later[k].terms == payments[k].terms
  }

  /** Moving a call to a phase that does not execute keeps the count, and leaving execution frees it. */
  lemma MoveKeepsOnce(s: System, c: nat, phase: Phase, payments: seq<Payment>)
    requires Once(s) && c < |s.calls| && !phase.Executing? && PhaseOk(phase, |s.payments|)
    requires Extends(s.payments, payments) && |payments| == |s.payments|
    ensures Once(MoveTo(s.(payments := payments), c, phase))
  {
    var m := MoveTo(s.(payments := payments), c, phase);
    forall k | 0 <= k ensures OnceOk(m, k) {
      assert OnceOk(s, k);
      TallyUpdate(s.calls, c, m.calls[c], AboutToExecute(k));
    }
  }

  lemma ExecuteKeepsOnce(s: System, c: nat, k: nat, result: Option<PayResult>)
    requires Once(s) && c < |s.calls| && s.calls[c].phase == Executing(k)
    ensures Once(MoveTo(s.(executed := s.executed + [k]), c, Answered(k, result)))
  {
    var m := MoveTo(s.(executed := s.executed + [k]), c, Answered(k, result));
    assert PhaseOk(s.calls[c].phase, |s.payments|);
    forall j | 0 <= j ensures OnceOk(m, j) {
      assert OnceOk(s, j);
      TallyUpdate(s.calls, c, m.calls[c], AboutToExecute(j));
      TallyAppend(s.executed, k, Executions(j));
    }
  }

  lemma CreateKeepsOnce(s: System, c: nat, pay: Payment)
    requires Once(s) && c < |s.calls| && s.calls[c].phase == Creating && Find(s.payments, pay.terms).None?
    ensures Once(MoveTo(s.(payments := s.payments + [pay]), c, Executing(|s.payments|)))
  {
    var n := |s.payments|;
    var m := MoveTo(s.(payments := s.payments + [pay]), c, Executing(n));
    TallyZero(s.executed, Executions(n));
    forall i | 0 <= i < |s.calls| ensures AboutToExecute(n)(s.calls[i]) == 0 {
      assert PhaseOk(s.calls[i].phase, n);
    }
    TallyZero(s.calls, AboutToExecute(n));
    forall k | 0 <= k ensures OnceOk(m, k) {
      assert OnceOk(s, k);
      TallyUpdate(s.calls, c, m.calls[c], AboutToExecute(k));
    }
    forall i | 0 <= i < |m.calls| ensures PhaseOk(m.calls[i].phase, |m.payments|) {
      assert PhaseOk(s.calls[i].phase, n);
    }
  }

  lemma AddCallKeepsOnce(s: System, call: Call)
    requires Once(s) && !call.phase.Executing? && PhaseOk(call.phase, |s.payments|)
    ensures Once(s.(calls := s.calls + [call]))
  {
    var m := s.(calls := s.calls + [call]);
    forall k | 0 <= k ensures OnceOk(m, k) {
      assert OnceOk(s, k);
      TallyAppend(s.calls, call, AboutToExecute(k));
    }
  }

  lemma WriteExtends(p: Provider, payments: seq<Payment>, phase: Phase, definite: bool)
    ensures Extends(payments, Write(p, payments, phase, definite))
    ensures |Write(p, payments, phase, definite)| == |payments|
  {}

  lemma AdvanceKeepsOnce(p: Provider, opens: Opens, s: System, c: nat, reply: Reply, now: int)
    requires Once(s) && c < |s.calls|
    ensures Once(Advance(p, opens, s, c, reply, now))
  {
    var call := s.calls[c];
    assert PhaseOk(call.phase, |s.payments|);
    match call.phase
    case Looking =>
      var k := Find(s.payments, call.terms);
      MoveKeepsOnce(s, c, if k.None? then Creating else OnFound(s.payments, k.value, call.terms, now), s.payments);
    case Creating =>
      if Find(s.payments, call.terms).Some? {
        MoveKeepsOnce(s, c, OnRaced(p, s.payments, call.terms, now), s.payments);
      } else {
        CreateKeepsOnce(s, c, NewPayment(call.terms, now));
      }
    case Executing(k) => ExecuteKeepsOnce(s, c, k, Classify(p, opens, reply, false, call.terms));
    case Reconciling(k) =>
      MoveKeepsOnce(s, c, LookedUp(k, Classify(p, opens, reply, true, s.payments[k].terms)), s.payments);
    case Done =>
    case _ =>
      WriteExtends(p, s.payments, call.phase, reply.Silence? && reply.definite);
      MoveKeepsOnce(s, c, Done, Write(p, s.payments, call.phase, reply.Silence? && reply.definite));
  }

  lemma StepKeepsOnce(p: Provider, opens: Opens, s: System, op: Op)
    requires Once(s)
    ensures Once(Step(p, opens, s, op))
  {
    match op
    case Begin(terms) => AddCallKeepsOnce(s, Call(terms, Looking));
    case CheckStatus(k) =>
      if k < |s.payments| {
        AddCallKeepsOnce(s, Call(s.payments[k].terms, Reconciling(k)));
      }
    case Move(c, reply, now) =>
      if c < |s.calls| {
        AdvanceKeepsOnce(p, opens, s, c, reply, now);
      }
  }

  lemma {:induction false} RunKeepsOnce(p: Provider, opens: Opens, s: System, ops: seq<Op>)
    requires Once(s)
    ensures Once(Run(p, opens, s, ops))
  {
    if ops != [] {
      RunKeepsOnce(p, opens, s, ops[..|ops| - 1]);
      StepKeepsOnce(p, opens, Run(p, opens, s, ops[..|ops| - 1]), ops[|ops| - 1]);
    }
  }

  /** In every interleaving of calls, retries and status checks, for either provider, no two executions are for the
      same owner and payment hash, or the same owner, connection and idempotency key. */
  lemma AtMostOnce(p: Provider, opens: Opens, ops: seq<Op>, i: nat, j: nat)
    requires i < j < |Run(p, opens, START, ops).executed|
    ensures var s := Run(p, opens, START, ops);
            && s.executed[i] < |s.payments| && s.executed[j] < |s.payments|
            && !SameHash(s.payments[s.executed[i]].terms, s.payments[s.executed[j]].terms)
            && !SameKey(s.payments[s.executed[i]].terms, s.payments[s.executed[j]].terms)
  {
    RunKeepsOnce(p, opens, START, ops);
    var s := Run(p, opens, START, ops);
    var x, y := s.executed[i], s.executed[j];
    if x == y {
      assert OnceOk(s, x);
      TallyTwoMembers(s.executed, i, j, Executions(x));
    } else if x > y {
      assert !SameHash(s.payments[y].terms, s.payments[x].terms) && !SameKey(s.payments[y].terms, s.payments[x].terms);
    }
  }

  // Proven success (BTCPay).

  ghost predicate Opened(opens: Opens, hash: string) {
    exists preimage: string :: opens(preimage, hash)
  }

  /** A reported success is backed by a preimage of the payment hash and a fee within the limit. */
  ghost predicate Proven(opens: Opens, t: Terms, r: PayResult) {
    r.Paid? ==> r.verified && r.fee <= t.maxFee && Opened(opens, t.hash)
  }

  /** A reply counts as success exactly when it says complete for the right hash with a preimage that opens it, a
      readable fee within the limit, and a total that is absent or exact. */
  lemma SuccessIff(opens: Opens, code: nat, body: Option<Body>, t: Terms)
    ensures StatusResult(opens, code, body, t).Ok? && StatusResult(opens, code, body, t).value.Paid? <==>
              && body.Some?
              && (body.value.hash.Some? ==> Lower(body.value.hash.value) == t.hash)
              && body.value.status.Some? && Lower(body.value.status.value) == "complete"
              && opens(body.value.preimage, t.hash)
              && var fee := ReadAtomic(if body.value.fee.Absent? then Text("0") else body.value.fee);
                 && fee.Ok? && fee.value <= t.maxFee
                 && (!body.value.total.Absent? ==> ReadAtomic(body.value.total) == Ok(t.amount + fee.value))
    ensures StatusResult(opens, code, body, t).Ok? ==> Proven(opens, t, StatusResult(opens, code, body, t).value)
  {}

  lemma ClassifiedIsProven(opens: Opens, reply: Reply, lookup: bool, t: Terms)
    ensures var r := Classify(Btcpay, opens, reply, lookup, t);
            r.Some? ==> Proven(opens, t, r.value)
  {
    if reply.Http? {
      SuccessIff(opens, reply.code, reply.body, t);
    }
  }

  ghost predicate ResultOk(opens: Opens, payments: seq<Payment>, call: Call) {
    match call.phase
    case Executing(k) => k < |payments| && payments[k].terms == call.terms
    case Answered(k, Some(r)) => k < |payments| && Proven(opens, payments[k].terms, r)
    case LookedUp(k, Some(r)) => k < |payments| && Proven(opens, payments[k].terms, r)
    case _ => true
  }

  ghost predicate PaymentOk(opens: Opens, pay: Payment) {
    pay.status == Succeeded ==> pay.verified && pay.fee <= pay.terms.maxFee && Opened(opens, pay.terms.hash)
  }

  ghost predicate ProvenSystem(opens: Opens, s: System) {
    && (forall k :: 0 <= k < |s.payments| ==> PaymentOk(opens, s.payments[k]))
    && (forall c :: 0 <= c < |s.calls| ==> ResultOk(opens, s.payments, s.calls[c]))
  }

  lemma MoveKeepsProven(opens: Opens, s: System, c: nat, phase: Phase, payments: seq<Payment>, executed: seq<nat>)
    requires ProvenSystem(opens, s) && c < |s.calls| && Extends(s.payments, payments)
    requires forall k :: 0 <= k < |payments| ==> PaymentOk(opens, payments[k])
    requires ResultOk(opens, payments, s.calls[c].(phase := phase))
    ensures ProvenSystem(opens, MoveTo(s.(payments := payments, executed := executed), c, phase))
  {
    var m := MoveTo(s.(payments := payments, executed := executed), c, phase);
    forall i | 0 <= i < |m.calls| ensures ResultOk(opens, m.payments, m.calls[i]) {
      assert ResultOk(opens, s.payments, s.calls[i]);
    }
  }

  lemma WriteIsProven(opens: Opens, s: System, c: nat, definite: bool)
    requires ProvenSystem(opens, s) && c < |s.calls|
    ensures var payments := Write(Btcpay, s.payments, s.calls[c].phase, definite);
            forall k :: 0 <= k < |payments| ==> PaymentOk(opens, payments[k])
  {
    assert ResultOk(opens, s.payments, s.calls[c]);
    var payments := Write(Btcpay, s.payments, s.calls[c].phase, definite);
    forall k | 0 <= k < |payments| ensures PaymentOk(opens, payments[k]) {
      assert PaymentOk(opens, s.payments[k]);
    }
  }

  lemma AdvanceKeepsProven(opens: Opens, s: System, c: nat, reply: Reply, now: int)
    requires ProvenSystem(opens, s) && c < |s.calls|
    ensures ProvenSystem(opens, Advance(Btcpay, opens, s, c, reply, now))
  {
    var call := s.calls[c];
    assert ResultOk(opens, s.payments, call);
    match call.phase
    case Looking =>
      var k := Find(s.payments, call.terms);
      MoveKeepsProven(opens, s, c, if k.None? then Creating else OnFound(s.payments, k.value, call.terms, now),
                      s.payments, s.executed);
    case Creating =>
      if Find(s.payments, call.terms).Some? {
        MoveKeepsProven(opens, s, c, OnRaced(Btcpay, s.payments, call.terms, now), s.payments, s.executed);
      } else {
        MoveKeepsProven(opens, s, c, Executing(|s.payments|), s.payments + [NewPayment(call.terms, now)], s.executed);
      }
    case Executing(k) =>
      ClassifiedIsProven(opens, reply, false, call.terms);
      MoveKeepsProven(opens, s, c, Answered(k, Classify(Btcpay, opens, reply, false, call.terms)), s.payments, s.executed + [k]);
    case Reconciling(k) =>
      if k < |s.payments| {
        ClassifiedIsProven(opens, reply, true, s.payments[k].terms);
      }
      MoveKeepsProven(opens, s, c,
                      LookedUp(k, if k < |s.payments| then Classify(Btcpay, opens, reply, true, s.payments[k].terms) else None),
                      s.payments, s.executed);
    case Done =>
    case _ =>
      var definite := reply.Silence? && reply.definite;
      WriteIsProven(opens, s, c, definite);
      WriteExtends(Btcpay, s.payments, call.phase, definite);
      MoveKeepsProven(opens, s, c, Done, Write(Btcpay, s.payments, call.phase, definite), s.executed);
  }

  lemma StepKeepsProven(opens: Opens, s: System, op: Op)
    requires ProvenSystem(opens, s)
    ensures ProvenSystem(opens, Step(Btcpay, opens, s, op))
  {
    if op.Move? && op.c < |s.calls| {
      AdvanceKeepsProven(opens, s, op.c, op.reply, op.now);
    }
  }

  lemma {:induction false} RunKeepsProven(opens: Opens, s: System, ops: seq<Op>)
    requires ProvenSystem(opens, s)
    ensures ProvenSystem(opens, Run(Btcpay, opens, s, ops))
  {
    if ops != [] {
      RunKeepsProven(opens, s, ops[..|ops| - 1]);
      StepKeepsProven(opens, Run(Btcpay, opens, s, ops[..|ops| - 1]), ops[|ops| - 1]);
    }
  }

  /** Every BTCPay payment ever recorded as succeeded has a verified preimage of its hash and a fee within its limit. */
  lemma SucceededIsProven(opens: Opens, ops: seq<Op>, k: nat)
    requires var s := Run(Btcpay, opens, START, ops); k < |s.payments| && s.payments[k].status == Succeeded
    ensures var pay := Run(Btcpay, opens, START, ops).payments[k];
            pay.verified && pay.fee <= pay.terms.maxFee && Opened(opens, pay.terms.hash)
  {
    RunKeepsProven(opens, START, ops);
    assert PaymentOk(opens, Run(Btcpay, opens, START, ops).payments[k]);
  }

  // Final statuses.

  /** Terms never change, and a terminal record never changes at all. */
  ghost predicate Final(payments: seq<Payment>, later: seq<Payment>) {
    && Extends(payments, later)
    && forall k :: 0 <= k < |payments| && !IsLive(payments[k].status) ==> later[k] == payments[k]
  }

  /** The NWC write that ignores the stored status: a reconciliation whose lookup decided nothing. */
  predicate Overwrites(p: Provider, s: System, op: Op, k: nat) {
    && p == Nwc && op.Move? && op.c < |s.calls| && s.calls[op.c].phase.LookedUp? && s.calls[op.c].phase.k == k
    && s.calls[op.c].phase.result.Some?
    && (s.calls[op.c].phase.result.value.InProgress? || s.calls[op.c].phase.result.value.Unclear?)
  }

  /** A step changes a terminal record exactly when it is that write. */
  lemma TerminalChangesIff(p: Provider, opens: Opens, s: System, op: Op, k: nat)
    requires k < |s.payments| && !IsLive(s.payments[k].status)
    ensures var m := Step(p, opens, s, op);
            && k < |m.payments| && m.payments[k].terms == s.payments[k].terms
            && (m.payments[k] != s.payments[k] <==> Overwrites(p, s, op, k))
  {}

  lemma StepExtends(p: Provider, opens: Opens, s: System, op: Op)
    ensures Extends(s.payments, Step(p, opens, s, op).payments)
  {
    if op.Move? && op.c < |s.calls| {
      WriteExtends(p, s.payments, s.calls[op.c].phase, op.reply.Silence? && op.reply.definite);
    }
  }

  lemma StepIsFinal(opens: Opens, s: System, op: Op)
    ensures Final(s.payments, Step(Btcpay, opens, s, op).payments)
  {
    StepExtends(Btcpay, opens, s, op);
    forall k | 0 <= k < |s.payments| && !IsLive(s.payments[k].status)
      ensures Step(Btcpay, opens, s, op).payments[k] == s.payments[k]
    {
      TerminalChangesIff(Btcpay, opens, s, op, k);
    }
  }

  /** For BTCPay succeeded and failed are final over every interleaving. */
  lemma {:induction false} RunIsFinal(opens: Opens, s: System, ops: seq<Op>)
    ensures Final(s.payments, Run(Btcpay, opens, s, ops).payments)
  {
    if ops != [] {
      RunIsFinal(opens, s, ops[..|ops| - 1]);
      StepIsFinal(opens, Run(Btcpay, opens, s, ops[..|ops| - 1]), ops[|ops| - 1]);
    }
  }

  function Invoice(): Terms {
    Terms(0, 0, "key", "hash", "invoice", 1, 0, false)
  }

  /** An NWC payment is executed, its answer is lost, and it becomes uncertain; then two status checks begin. */
  function Executed(): seq<Op> {
    [Begin(Invoice())] + [Move(0, Silence(false), 0)] + [Move(0, Silence(false), 0)] + [Move(0, Silence(false), 0)]
    + [Move(0, Silence(false), 0)] + [CheckStatus(0)] + [CheckStatus(0)]
  }

  /** The first check finds it in progress, the second finds it paid and stores that. */
  function Settled(): seq<Op> {
    Executed() + [Move(1, Wallet(InProgress), 0)] + [Move(2, Wallet(Paid(0, true)), 0)] + [Move(2, Silence(false), 0)]
  }

  lemma RunSnoc(p: Provider, opens: Opens, s: System, ops: seq<Op>, op: Op)
    ensures Run(p, opens, s, ops + [op]) == Step(p, opens, Run(p, opens, s, ops), op)
  {
    assert (ops + [op])[..|ops|] == ops;
  }

  /** The system along that run: one record and up to three calls for it. */
  function Along(status: Status, lease: Option<int>, phases: seq<Phase>, executed: seq<nat>): System {
    System([Payment(Invoice(), status, 0, false, lease)],
           seq(|phases|, i requires 0 <= i < |phases| => Call(Invoice(), phases[i])), executed)
  }

  /** The call looks for an earlier payment of its invoice and finds none. */
  lemma FirstSteps(opens: Opens)
    ensures Step(Nwc, opens, START, Begin(Invoice())) == System([], [Call(Invoice(), Looking)], [])
    ensures Step(Nwc, opens, System([], [Call(Invoice(), Looking)], []), Move(0, Silence(false), 0))
            == System([], [Call(Invoice(), Creating)], [])
  {}

  lemma ExecutedLeads(opens: Opens)
    ensures Run(Nwc, opens, START, Executed()) == Along(Uncertain, None, [Done, Reconciling(0), Reconciling(0)], [0])
  {
    var ops, quiet := [Begin(Invoice())], Move(0, Silence(false), 0);
    FirstSteps(opens);
    assert [] + [Begin(Invoice())] == ops;
    RunSnoc(Nwc, opens, START, [], Begin(Invoice()));
    RunSnoc(Nwc, opens, START, ops, quiet);
    ExecutionLeads(opens, ops + [quiet]);
  }

  lemma ExecutionLeads(opens: Opens, ops: seq<Op>)
    requires Run(Nwc, opens, START, ops) == System([], [Call(Invoice(), Creating)], [])
    ensures var quiet := Move(0, Silence(false), 0);
            Run(Nwc, opens, START, ops + [quiet] + [quiet] + [quiet] + [CheckStatus(0)] + [CheckStatus(0)])
            == Along(Uncertain, None, [Done, Reconciling(0), Reconciling(0)], [0])
  {
    var quiet := Move(0, Silence(false), 0);
    RunSnoc(Nwc, opens, START, ops, quiet);
    assert Run(Nwc, opens, START, ops + [quiet]) == Along(Pending, Some(LEASE_MS), [Executing(0)], []);
    RunSnoc(Nwc, opens, START, ops + [quiet], quiet);
    assert Run(Nwc, opens, START, ops + [quiet] + [quiet]) == Along(Pending, Some(LEASE_MS), [Answered(0, None)], [0]);
    RunSnoc(Nwc, opens, START, ops + [quiet] + [quiet], quiet);
    assert Run(Nwc, opens, START, ops + [quiet] + [quiet] + [quiet]) == Along(Uncertain, None, [Done], [0]);
    RunSnoc(Nwc, opens, START, ops + [quiet] + [quiet] + [quiet], CheckStatus(0));
    assert Run(Nwc, opens, START, ops + [quiet] + [quiet] + [quiet] + [CheckStatus(0)])
        == Along(Uncertain, None, [Done, Reconciling(0)], [0]);
    RunSnoc(Nwc, opens, START, ops + [quiet] + [quiet] + [quiet] + [CheckStatus(0)], CheckStatus(0));
  }

  /** NWC: from the empty system, a payment that a status check saw succeed and stored is put back to uncertain by another
      check that had looked it up before. */
  lemma NwcSuccessIsNotFinal(opens: Opens)
    ensures var stored := Run(Nwc, opens, START, Settled()).payments;
            var overwritten := Run(Nwc, opens, START, Settled() + [Move(1, Silence(false), 0)]).payments;
            && |stored| == |overwritten| == 1
            && stored[0].status == Succeeded && overwritten[0].status == Uncertain
  {
    var ops, first, second := Executed(), Move(1, Wallet(InProgress), 0), Move(2, Wallet(Paid(0, true)), 0);
    ExecutedLeads(opens);
    RunSnoc(Nwc, opens, START, ops, first);
    assert Run(Nwc, opens, START, ops + [first])
        == Along(Uncertain, None, [Done, LookedUp(0, Some(InProgress)), Reconciling(0)], [0]);
    RunSnoc(Nwc, opens, START, ops + [first], second);
    assert Run(Nwc, opens, START, ops + [first] + [second])
        == Along(Uncertain, None, [Done, LookedUp(0, Some(InProgress)), LookedUp(0, Some(Paid(0, true)))], [0]);
    RunSnoc(Nwc, opens, START, ops + [first] + [second], Move(2, Silence(false), 0));
    RunSnoc(Nwc, opens, START, Settled(), Move(1, Silence(false), 0));
  }
}
