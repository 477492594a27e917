/** Lightning payments through BTCPay and NWC: provider replies, payment records and their conditional writes, and any
    number of interleaved calls (src/services/btcpay.service.ts, src/services/nwc.service.ts,
    src/connectors/btcpayConnector.ts). A call is a process that moves by one database or provider action at a time. */
module Payments {
  import opened Wrappers
  import opened Money

  const LEASE_MS: int := 60_000

  datatype Provider = Btcpay | Nwc

  /** A payment request: what the request fingerprint commits to, and for NWC its execution mode. NWC has no fee limit. */
  datatype Terms = Terms(
    owner: nat,
    connection: nat,
    key: string,
    hash: string,
    invoice: string,
    amount: nat,
    maxFee: nat,
    unattended: bool)

  datatype Status = Pending | Uncertain | Succeeded | Failed

  datatype Payment = Payment(terms: Terms, status: Status, fee: nat, verified: bool, lease: Option<int>)

  /** Whether a preimage opens a payment hash. */
  type Opens = (string, string) -> bool

  // Provider replies.

  datatype Field = Absent | Text(text: string) | Unreadable

  datatype Body = Body(hash: Option<string>, status: Option<string>, preimage: string, fee: Field, total: Field)

  datatype PayResult = Paid(fee: nat, verified: bool) | InProgress | Unclear | Refused

  datatype Reply = Http(code: nat, body: Option<Body>) | Wallet(result: PayResult) | Silence(definite: bool)

  datatype ReplyError = Invalid | HashMismatch | ProofInvalid | FeeTooHigh | AmountMismatch | Rejected

  function LowerChar(c: char): char {
    if 'A' <= c <= 'Z' then ((c as int) + 32) as char else c
  }

  function Lower(s: string): (r: string)
    ensures |r| == |s| && forall i :: 0 <= i < |s| ==> r[i] == LowerChar(s[i])
  {
    seq(|s|, i requires 0 <= i < |s| => LowerChar(s[i]))
  }

  function ReadAtomic(field: Field): (r: Result<nat, ReplyError>) {
    if field.Text? && ParseAtomic(field.text).Ok? then Ok(ParseAtomic(field.text).value) else Err(Invalid)
  }

  /** Classifies a readable reply: complete needs the proof, the fee limit and the exact total. */
  function StatusResult(opens: Opens, code: nat, body: Option<Body>, t: Terms): (r: Result<PayResult, ReplyError>) {
    var _ :- Check(body.Some?, Invalid);
    var said := body.value;
    var _ :- Check(said.hash.Some? ==> Lower(said.hash.value) == t.hash, HashMismatch);
    var status := if said.status.Some? then Lower(said.status.value) else if code == 202 then "unknown" else "";
    if status == "complete" then
      var _ :- Check(opens(said.preimage, t.hash), ProofInvalid);
      var fee :- ReadAtomic(if said.fee.Absent? then Text("0") else said.fee);
      var _ :- Check(fee <= t.maxFee, FeeTooHigh);
      if said.total.Absent? then Ok(Paid(fee, true))
      else
        var total :- ReadAtomic(said.total);
        var _ :- Check(total == t.amount + fee, AmountMismatch);
        Ok(Paid(fee, true))
    else if status == "pending" || status == "unknown" || code == 202 then
      Ok(if status == "unknown" then Unclear else InProgress)
    else Ok(Refused)
  }

  /** What the service makes of an answer; nothing when the connector threw. */
  function Classify(p: Provider, opens: Opens, reply: Reply, lookup: bool, t: Terms): Option<PayResult> {
    match (p, reply)
    case (Btcpay, Http(code, body)) =>
      if lookup && code == 404 then Some(Unclear)
      else if code != 200 && (lookup || code != 202) then None
      else
        var r := StatusResult(opens, code, body, t);
        if r.Ok? then Some(r.value) else None
    case (Nwc, Wallet(result)) => Some(result)
    case _ => None
  }

  // Conditional writes.

  predicate IsLive(s: Status) {
    s == Pending || s == Uncertain
  }

  function StatusOf(r: PayResult): Status {
    match r
    case Paid(_, _) => Succeeded
    case InProgress => Pending
    case Unclear => Uncertain
    case Refused => Failed
  }

  function Resolved(pay: Payment, r: PayResult): Payment {
    pay.(status := StatusOf(r), fee := if r.Paid? then r.fee else pay.fee, verified := r.Paid? && r.verified, lease := None)
  }

  /** Stores a result, unless the record is already terminal. */
  function Persist(payments: seq<Payment>, k: nat, r: PayResult): seq<Payment> {
    if k < |payments| && IsLive(payments[k].status) then payments[k := Resolved(payments[k], r)] else payments
  }

  function MarkUncertain(payments: seq<Payment>, k: nat): seq<Payment> {
    if k < |payments| && IsLive(payments[k].status)
    then payments[k := payments[k].(status := Uncertain, lease := None)] else payments
  }

  function MarkFailed(payments: seq<Payment>, k: nat): seq<Payment> {
    if k < |payments| && IsLive(payments[k].status)
    then payments[k := payments[k].(status := Failed, lease := None)] else payments
  }

  /** The NWC reconciliation's write for an undecided lookup: it does not look at the stored status. */
  function OverwriteUncertain(payments: seq<Payment>, k: nat): seq<Payment> {
    if k < |payments| then payments[k := payments[k].(status := Uncertain, lease := None)] else payments
  }

  // Calls.

  datatype Phase =
    | Looking
    | Creating
    | Executing(k: nat)
    | Answered(k: nat, result: Option<PayResult>)
    | Reconciling(k: nat)
    | LookedUp(k: nat, result: Option<PayResult>)
    | Done

  datatype Call = Call(terms: Terms, phase: Phase)

  datatype System = System(payments: seq<Payment>, calls: seq<Call>, executed: seq<nat>)

  predicate SameHash(t: Terms, u: Terms) {
    t.owner == u.owner && t.hash == u.hash
  }

  predicate SameKey(t: Terms, u: Terms) {
    t.owner == u.owner && t.connection == u.connection && t.key == u.key
  }

  /** The record of the same idempotency key or the same payment hash. */
  function Find(payments: seq<Payment>, t: Terms): (k: Option<nat>)
    ensures k.Some? ==> k.value < |payments| && (SameKey(payments[k.value].terms, t) || SameHash(payments[k.value].terms, t))
    ensures k.None? ==> forall j :: 0 <= j < |payments| ==> !SameKey(payments[j].terms, t) && !SameHash(payments[j].terms, t)
  {
    if payments == [] then None
    else
      var last := payments[|payments| - 1];
      if SameKey(last.terms, t) || SameHash(last.terms, t) then Some(|payments| - 1)
      else Find(payments[..|payments| - 1], t)
  }

  function FindHash(payments: seq<Payment>, t: Terms): (k: Option<nat>)
    ensures k.Some? ==> k.value < |payments| && SameHash(payments[k.value].terms, t)
    ensures k.None? ==> forall j :: 0 <= j < |payments| ==> !SameHash(payments[j].terms, t)
  {
    if payments == [] then None
    else if SameHash(payments[|payments| - 1].terms, t) then Some(|payments| - 1)
    else FindHash(payments[..|payments| - 1], t)
  }

  predicate InFlight(pay: Payment, now: int) {
    pay.status == Pending && pay.lease.Some? && pay.lease.value > now
  }

  function NewPayment(t: Terms, now: int): Payment {
    Payment(t, Pending, 0, false, Some(now + LEASE_MS))
  }

  /** What a call does about a record that is already there. */
  function OnFound(payments: seq<Payment>, k: nat, t: Terms, now: int): Phase
    requires k < |payments|
  {
    var pay := payments[k];
    if pay.terms != t || !IsLive(pay.status) || InFlight(pay, now) then Done else Reconciling(k)
  }

  /** What a call does when its insert met a duplicate. BTCPay goes on to reconcile even a finished record. */
  function OnRaced(p: Provider, payments: seq<Payment>, t: Terms, now: int): Phase {
    var k := FindHash(payments, t);
    if k.None? then Done
    else
      var pay := payments[k.value];
      if pay.terms != t || InFlight(pay, now) || (p == Nwc && pay.status == Succeeded) then Done else Reconciling(k.value)
  }

  function Write(p: Provider, payments: seq<Payment>, phase: Phase, definite: bool): seq<Payment> {
    match phase
    case Answered(k, None) => if p == Nwc && definite then MarkFailed(payments, k) else MarkUncertain(payments, k)
    case Answered(k, Some(r)) => if p == Nwc && !r.Paid? then payments else Persist(payments, k, r)
    case LookedUp(k, None) => MarkUncertain(payments, k)
    case LookedUp(k, Some(r)) =>
      if p == Nwc && (r.InProgress? || r.Unclear?) then OverwriteUncertain(payments, k) else Persist(payments, k, r)
    case _ => payments
  }

  /** Moves call `c` by one action: a read, an insert, a provider request, or a write. */
  function Advance(p: Provider, opens: Opens, s: System, c: nat, reply: Reply, now: int): System {
    if c >= |s.calls| then s
    else
      var call := s.calls[c];
      match call.phase
      case Looking =>
        var k := Find(s.payments, call.terms);
        MoveTo(s, c, if k.None? then Creating else OnFound(s.payments, k.value, call.terms, now))
      case Creating =>
        if Find(s.payments, call.terms).Some? then MoveTo(s, c, OnRaced(p, s.payments, call.terms, now))
        else MoveTo(s.(payments := s.payments + [NewPayment(call.terms, now)]), c, Executing(|s.payments|))
      case Executing(k) =>
        MoveTo(s.(executed := s.executed + [k]), c, Answered(k, Classify(p, opens, reply, false, call.terms)))
      case Reconciling(k) =>
        MoveTo(s, c, LookedUp(k, if k < |s.payments| then Classify(p, opens, reply, true, s.payments[k].terms) else None))
      case Done => s
      case _ =>
        MoveTo(s.(payments := Write(p, s.payments, call.phase, reply.Silence? && reply.definite)), c, Done)
  }

  function MoveTo(s: System, c: nat, phase: Phase): System
    requires c < |s.calls|
  {
    s.(calls := s.calls[c := s.calls[c].(phase := phase)])
  }

  datatype Op = Begin(terms: Terms) | CheckStatus(k: nat) | Move(c: nat, reply: Reply, now: int)

  function Step(p: Provider, opens: Opens, s: System, op: Op): System {
    match op
    case Begin(terms) => s.(calls := s.calls + [Call(terms, Looking)])
    case CheckStatus(k) =>
      if k < |s.payments| && IsLive(s.payments[k].status)
      then s.(calls := s.calls + [Call(s.payments[k].terms, Reconciling(k))]) else s
    case Move(c, reply, now) => Advance(p, opens, s, c, reply, now)
  }

  function Run(p: Provider, opens: Opens, s: System, ops: seq<Op>): System {
    if ops == [] then s else Step(p, opens, Run(p, opens, s, ops[..|ops| - 1]), ops[|ops| - 1])
  }

  const START: System := System([], [], [])
}
