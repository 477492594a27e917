/** The stored payment records of one provider, written by conditional updates, and one call run from start to end while
    other calls write in between (payBtcpayLightning, payNwcInvoice). */
module PaymentStores {
  import opened Wrappers
  import opened Tallies
  import opened Payments
  import opened PaymentTheorems

  /** What a call meets outside itself: the answers of the provider and what other processes make of the records while
      it waits for the insert, the provider, and the lookup. */
  datatype Meanwhile = Meanwhile(
    beforeInsert: seq<Payment>,
    execution: Reply,
    afterExecution: seq<Payment>,
    lookup: Reply,
    afterLookup: seq<Payment>,
    silence: bool)

  function Reconciled(p: Provider, opens: Opens, payments: seq<Payment>, k: nat, m: Meanwhile): seq<Payment> {
    var result := if k < |payments| then Classify(p, opens, m.lookup, true, payments[k].terms) else None;
    Write(p, m.afterLookup, LookedUp(k, result), m.silence)
  }

  /** A call in one piece: the records it leaves, and the record it executed, if any. */
  function Paying(p: Provider, opens: Opens, payments: seq<Payment>, t: Terms, m: Meanwhile, now: int): (seq<Payment>, Option<nat>) {
    var existing := Find(payments, t);
    if existing.Some? then
      var next := OnFound(payments, existing.value, t, now);
      (if next.Reconciling? then Reconciled(p, opens, payments, next.k, m) else payments, None)
    else if Find(m.beforeInsert, t).Some? then
      var next := OnRaced(p, m.beforeInsert, t, now);
      (if next.Reconciling? then Reconciled(p, opens, m.beforeInsert, next.k, m) else m.beforeInsert, None)
    else
      var k := |m.beforeInsert|;
      (Write(p, m.afterExecution, Answered(k, Classify(p, opens, m.execution, false, t)), m.silence), Some(k))
  }

  datatype PayOutcome = Conflict | Finished(k: nat) | Waiting(k: nat) | Refusal(k: nat) | Written(k: nat)

  class PaymentStore {
    const provider: Provider
    var payments: seq<Payment>
    var executed: seq<nat>

    constructor (provider: Provider)
      ensures this.provider == provider && payments == [] && executed == []
    {
      this.provider := provider;
      payments, executed := [], [];
    }

    method PersistPaymentResult(k: nat, r: PayResult)
      modifies this`payments
      ensures payments == Persist(old(payments), k, r)
      ensures Final(old(payments), payments)
    {
      if k < |payments| && (payments[k].status == Pending || payments[k].status == Uncertain) {
        var payment := payments[k];
        payment := payment.(status := StatusOf(r));
        if r.Paid? {
          payment := payment.(fee := r.fee);
        }
        payment := payment.(verified := r.Paid? && r.verified);
        payment := payment.(lease := None);
        payments := payments[k := payment];
      }
    }

    method MarkPaymentUncertain(k: nat)
      modifies this`payments
      ensures payments == MarkUncertain(old(payments), k)
      ensures Final(old(payments), payments)
    {
      if k < |payments| && (payments[k].status == Pending || payments[k].status == Uncertain) {
        var payment := payments[k];
        payment := payment.(status := Uncertain);
        payment := payment.(lease := None);
        payments := payments[k := payment];
      }
    }

    /** Stores what an execution or a lookup came to, as the provider's service does it. */
    method StoreResult(phase: Phase, definite: bool)
      requires phase.Answered? || phase.LookedUp?
      modifies this`payments
      ensures payments == Write(provider, old(payments), phase, definite)
    {
      if phase.result.None? {
        if phase.Answered? && provider == Nwc && definite {
          payments := MarkFailed(payments, phase.k);
        } else {
          MarkPaymentUncertain(phase.k);
        }
      } else {
        var r := phase.result.value;
        if provider == Btcpay || r.Paid? || (phase.LookedUp? && r.Refused?) {
          PersistPaymentResult(phase.k, r);
        } else if phase.LookedUp? {
          payments := OverwriteUncertain(payments, phase.k);
        }
      }
    }

    /** Inserts the record of a new payment unless its key or its hash is taken. */
    method CreatePayment(t: Terms, now: int) returns (k: Option<nat>)
      modifies this`payments
      ensures DistinctPayments(old(payments)) ==> DistinctPayments(payments)
      ensures if Find(old(payments), t).Some? then k == None && payments == old(payments)
              else k == Some(|old(payments)|) && payments == old(payments) + [NewPayment(t, now)]
    {
      for j := 0 to |payments|
        invariant payments == old(payments)
        invariant forall i :: 0 <= i < j ==> !SameKey(payments[i].terms, t) && !SameHash(payments[i].terms, t)
      {
        if SameKey(payments[j].terms, t) || SameHash(payments[j].terms, t) {
          return None;
        }
      }
      payments := payments + [Payment(t, Pending, 0, false, Some(now + LEASE_MS))];
      return Some(|payments| - 1);
    }

    /** Looks a payment up at the provider and stores what it says. */
    method ReconcilePayment(k: nat, opens: Opens, m: Meanwhile)
      modifies this`payments
      ensures payments == Reconciled(provider, opens, old(payments), k, m)
    {
      var result := if k < |payments| then Classify(provider, opens, m.lookup, true, payments[k].terms) else None;
      payments := m.afterLookup;
      StoreResult(LookedUp(k, result), m.silence);
    }

    /** One call. It executes at most once, only when its own insert succeeded, and then for the record it inserted;
        a record that was there before, or that another call inserted first, is never executed by it. */
    method Pay(t: Terms, opens: Opens, m: Meanwhile, now: int) returns (outcome: PayOutcome)
      modifies this
      ensures var (left, execution) := Paying(provider, opens, old(payments), t, m, now);
              && payments == left
              && executed == old(executed) + (if execution.Some? then [execution.value] else [])
              && (execution.Some? <==> Find(old(payments), t).None? && Find(m.beforeInsert, t).None?)
    {
      var existing := Find(payments, t);
      if existing.Some? {
        var payment := payments[existing.value];
        if payment.terms != t {
          return Conflict;
        }
        if payment.status == Succeeded || InFlight(payment, now) {
          return Finished(existing.value);
        }
        if payment.status == Failed {
          return Refusal(existing.value);
        }
        ReconcilePayment(existing.value, opens, m);
        return Written(existing.value);
      }
      payments := m.beforeInsert;
      var k := CreatePayment(t, now);
      if k.None? {
        var raced := FindHash(payments, t);
        if raced.None? || payments[raced.value].terms != t {
          return Conflict;
        }
        if InFlight(payments[raced.value], now) || (provider == Nwc && payments[raced.value].status == Succeeded) {
          return Waiting(raced.value);
        }
        ReconcilePayment(raced.value, opens, m);
        return Written(raced.value);
      }
      executed := executed + [k.value];
      var result := Classify(provider, opens, m.execution, false, t);
      payments := m.afterExecution;
      StoreResult(Answered(k.value, result), m.silence);
      return Written(k.value);
    }
  }
}
