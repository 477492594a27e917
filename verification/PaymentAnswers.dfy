/** What every provider reply means, and what every move of a payment call answers and writes, on the stored records
    (src/connectors/btcpayConnector.ts, src/services/btcpay.service.ts, src/services/nwc.service.ts). */
module PaymentAnswers {
  import opened Wrappers
  import opened Money
  import opened Payments

  // Replies.

  /** The status a reply states, in lower case; an accepted reply without one is unknown. */
  function Said(code: nat, body: Body): string {
    match body.status
    case Some(s) => Lower(s)
    case None => if code == 202 then "unknown" else ""
  }

  predicate RightHash(body: Body, t: Terms) {
    body.hash.Some? ==> Lower(body.hash.value) == t.hash
  }

  /** The fee a reply charges: absent is nothing, and it must be exact otherwise. */
  function ChargedFee(body: Body): Option<nat> {
    match body.fee
    case Absent => Some(0)
    case Text(s) => if ParseAtomic(s).Ok? then Some(ParseAtomic(s).value) else None
    case Unreadable => None
  }

  /** A complete reply proves itself: the preimage opens the hash, the fee is within the limit, and a stated total is exact. */
  predicate Proves(opens: Opens, body: Body, t: Terms) {
    && opens(body.preimage, t.hash) && ChargedFee(body).Some? && ChargedFee(body).value <= t.maxFee
    && (match body.total
        case Absent => true
        case Text(s) => ParseAtomic(s) == Ok(t.amount + ChargedFee(body).value)
        case Unreadable => false)
  }

  lemma ZeroFee()
    ensures ParseAtomic("0") == Ok(0)
  {
    ParseExactlyPrints("0", 0);
  }

  /** What an execution or a lookup at BTCPay comes to. A lookup that finds nothing is unclear; a reply that is not a readable
      answer for the right hash decides nothing; a complete one is a success exactly when it proves itself; pending or
      merely accepted ones are in progress, unknown ones unclear, and all others refused. */
  lemma BtcpayMeans(opens: Opens, code: nat, body: Option<Body>, lookup: bool, t: Terms)
    ensures Classify(Btcpay, opens, Http(code, body), lookup, t)
            == if lookup && code == 404 then Some(Unclear)
               else if code != 200 && !(code == 202 && !lookup) then None
               else if body.None? || !RightHash(body.value, t) then None
               else if Said(code, body.value) == "complete" then
                 if Proves(opens, body.value, t) then Some(Paid(ChargedFee(body.value).value, true)) else None
               else if Said(code, body.value) == "unknown" then Some(Unclear)
               else if Said(code, body.value) == "pending" || code == 202 then Some(InProgress)
               else Some(Refused)
  {
    ZeroFee();
  }

  /** An NWC wallet's own answer is taken as it is; silence and foreign replies decide nothing. */
  lemma OthersMean(p: Provider, opens: Opens, result: PayResult, definite: bool, lookup: bool, t: Terms, code: nat, body: Option<Body>)
    ensures Classify(Nwc, opens, Wallet(result), lookup, t) == Some(result)
    ensures Classify(p, opens, Silence(definite), lookup, t) == None
    ensures Classify(Nwc, opens, Http(code, body), lookup, t) == None && Classify(Btcpay, opens, Wallet(result), lookup, t) == None
  {}

  lemma LowerIs(s: string, i: nat)
    requires i < |s|
    ensures |Lower(s)| == |s|
    ensures 'A' <= s[i] <= 'Z' ==> Lower(s)[i] as int == s[i] as int + ('a' as int - 'A' as int)
    ensures !('A' <= s[i] <= 'Z') ==> Lower(s)[i] == s[i]
  {}

  // Writes.

  predicate Live(pay: Payment) {
    pay.status in {Pending, Uncertain}
  }

  /** A result stored on a live record: what was paid succeeds with its fee, what was refused fails, and neither, nor anything
      still open, keeps the lease. */
  predicate Stores(pay: Payment, r: PayResult, after: Payment) {
    && after.terms == pay.terms && after.lease == None
    && (match r
        case Paid(fee, verified) => after.status == Succeeded && after.fee == fee && after.verified == verified
        case InProgress => after.status == Pending && after.fee == pay.fee && !after.verified
        case Unclear => after.status == Uncertain && after.fee == pay.fee && !after.verified
        case Refused => after.status == Failed && after.fee == pay.fee && !after.verified)
  }

  predicate OnlyRow(payments: seq<Payment>, later: seq<Payment>, k: nat) {
    |later| == |payments| && forall j :: 0 <= j < |payments| && j != k ==> later[j] == payments[j]
  }

  /** What is written after an execution. BTCPay stores any result; NWC stores a success only, and fails a payment the wallet
      definitely refused; what stays undecided is uncertain. A finished record is left alone. */
  lemma ExecutionWrites(p: Provider, payments: seq<Payment>, k: nat, result: Option<PayResult>, definite: bool)
    ensures var later := Write(p, payments, Answered(k, result), definite);
            && OnlyRow(payments, later, k)
            && (k < |payments| ==>
                  if !Live(payments[k]) then later[k] == payments[k]
                  else match result
                    case None =>
                      later[k] == payments[k].(status := if p == Nwc && definite then Failed else Uncertain, lease := None)
                    case Some(r) =>
                      if p == Nwc && !r.Paid? then later[k] == payments[k] else Stores(payments[k], r, later[k]))
  {}

  /** What is written after a lookup. An undecided one at NWC makes the record uncertain whatever it was. */
  lemma LookupWrites(p: Provider, payments: seq<Payment>, k: nat, result: Option<PayResult>, definite: bool)
    ensures var later := Write(p, payments, LookedUp(k, result), definite);
            && OnlyRow(payments, later, k)
            && (k < |payments| ==>
                  if p == Nwc && result in {Some(InProgress), Some(Unclear)} then later[k] == payments[k].(status := Uncertain, lease := None)
                  else if !Live(payments[k]) then later[k] == payments[k]
                  else match result
                    case None => later[k] == payments[k].(status := Uncertain, lease := None)
                    case Some(r) => Stores(payments[k], r, later[k]))
  {}

  // Moves.

  /** The phase call `c` is in after a move; the other calls are where they were. */
  predicate MovesTo(s: System, m: System, c: nat, phase: Phase) {
    && c < |s.calls| == |m.calls| && m.calls[c] == Call(s.calls[c].terms, phase)
    && forall d :: 0 <= d < |s.calls| && d != c ==> m.calls[d] == s.calls[d]
  }

  /** Another call is executing this payment: it is pending under a lease that has not run out. */
  predicate BeingExecuted(pay: Payment, now: int) {
    pay.status == Pending && pay.lease.Some? && now < pay.lease.value
  }

  ghost predicate Matches(payments: seq<Payment>, t: Terms, k: nat) {
    && k < |payments|
    && var stored := payments[k].terms;
       && stored.owner == t.owner
       && (stored.hash == t.hash || (stored.connection == t.connection && stored.key == t.key))
  }

  ghost predicate OfHash(payments: seq<Payment>, t: Terms, k: nat) {
    k < |payments| && payments[k].terms.owner == t.owner && payments[k].terms.hash == t.hash
  }

  /** A call first looks for its key or its hash: a stored payment of the same terms that is undecided and not being executed
      is reconciled, any other ends the call, and with none it goes on to create one. */
  lemma LookingMoves(p: Provider, opens: Opens, s: System, c: nat, reply: Reply, now: int)
    requires c < |s.calls| && s.calls[c].phase == Looking
    ensures var m, t := Advance(p, opens, s, c, reply, now), s.calls[c].terms;
            && m.payments == s.payments && m.executed == s.executed
            && ((forall k :: 0 <= k < |s.payments| ==> !Matches(s.payments, t, k)) ==> MovesTo(s, m, c, Creating))
            && ((exists k :: 0 <= k < |s.payments| && Matches(s.payments, t, k)) ==>
                  exists k :: 0 <= k < |s.payments| && Matches(s.payments, t, k)
                              && MovesTo(s, m, c, if s.payments[k].terms == t && Live(s.payments[k]) && !BeingExecuted(s.payments[k], now)
                                                  then Reconciling(k) else Done))
  {
    var t := s.calls[c].terms;
    var found := Find(s.payments, t);
    assert found.Some? ==> Matches(s.payments, t, found.value);
  }

  /** Creating inserts a pending payment under a lease of a minute and goes on to execute exactly that one, if neither its key
      nor its hash is taken. If one is, a payment of the same hash and terms is reconciled, unless it is being executed or, at
      NWC, has succeeded. */
  lemma CreatingMoves(p: Provider, opens: Opens, s: System, c: nat, reply: Reply, now: int)
    requires c < |s.calls| && s.calls[c].phase == Creating
    ensures var m, t := Advance(p, opens, s, c, reply, now), s.calls[c].terms;
            && m.executed == s.executed
            && ((forall k :: 0 <= k < |s.payments| ==> !Matches(s.payments, t, k)) ==>
                  && m.payments == s.payments + [Payment(t, Pending, 0, false, Some(now + 60_000))]
                  && MovesTo(s, m, c, Executing(|s.payments|)))
            && ((exists k :: 0 <= k < |s.payments| && Matches(s.payments, t, k)) ==>
                  && m.payments == s.payments
                  && ((forall k :: 0 <= k < |s.payments| ==> !OfHash(s.payments, t, k)) ==> MovesTo(s, m, c, Done))
                  && ((exists k :: 0 <= k < |s.payments| && OfHash(s.payments, t, k)) ==>
                        exists k :: 0 <= k < |s.payments| && OfHash(s.payments, t, k)
                                    && MovesTo(s, m, c, if s.payments[k].terms == t && !BeingExecuted(s.payments[k], now)
                                                           && !(p == Nwc && s.payments[k].status == Succeeded)
                                                        then Reconciling(k) else Done)))
  {
    var t := s.calls[c].terms;
    var found := Find(s.payments, t);
    assert found.Some? ==> Matches(s.payments, t, found.value);
    var raced := FindHash(s.payments, t);
    assert raced.Some? ==> OfHash(s.payments, t, raced.value);
  }

  /** The provider is asked once per execution, for the record inserted; a lookup asks about the stored terms and executes
      nothing; and a finished call does nothing. */
  lemma AskingMoves(p: Provider, opens: Opens, s: System, c: nat, reply: Reply, now: int)
    requires c < |s.calls|
    ensures var m, phase := Advance(p, opens, s, c, reply, now), s.calls[c].phase;
            && (phase.Executing? ==>
                  && m.payments == s.payments && m.executed == s.executed + [phase.k]
                  && MovesTo(s, m, c, Answered(phase.k, Classify(p, opens, reply, false, s.calls[c].terms))))
            && (phase.Reconciling? && phase.k < |s.payments| ==>
                  && m.payments == s.payments && m.executed == s.executed
                  && MovesTo(s, m, c, LookedUp(phase.k, Classify(p, opens, reply, true, s.payments[phase.k].terms))))
            && (phase.Answered? || phase.LookedUp? ==>
                  && m.payments == Write(p, s.payments, phase, reply == Silence(true)) && m.executed == s.executed
                  && MovesTo(s, m, c, Done))
            && (phase.Done? ==> m == s)
  {}

  /** A new call begins by looking, and writes nothing. */
  lemma BeginMoves(p: Provider, opens: Opens, s: System, t: Terms)
    ensures Step(p, opens, s, Begin(t)) == System(s.payments, s.calls + [Call(t, Looking)], s.executed)
  {}

  /** A status check begins only for an undecided payment. */
  lemma CheckMoves(p: Provider, opens: Opens, s: System, k: nat)
    ensures Step(p, opens, s, CheckStatus(k))
            == if k < |s.payments| && Live(s.payments[k])
               then s.(calls := s.calls + [Call(s.payments[k].terms, Reconciling(k))]) else s
  {}
}
