/** The Stripe flavour of the payment gateway: a ledger of transactions with a
    ceiling of 10000 per charge and payment-method ids that start with `pm_`. */
module Stripe {
  import opened Optional
  import opened Text
  import opened PaymentTypes
  import Ledger

  const Policy := Ledger.Policy(
    10000.0,
    "Amount exceeds limit",
    "Transaction not found",
    "Refund amount exceeds original charge",
    "completed",
    "refunded",
    "not_found")

  /** The id a charge is stored under: `stripe_` followed by the caller-supplied
      time-and-random stamp. */
  function TransactionId(stamp: string): (id: string)
    ensures StartsWith(id, "stripe_") && |id| == |stamp| + 7
  {
    "stripe_" + stamp
  }

  /** The result `charge` returns for the ledger check's verdict `error`. */
  function ChargeResult(error: Option<string>, id: string): (r: PaymentResult)
    ensures r.success <==> error.None?
    ensures r.success ==> r.transactionId == Some(id) && r.gatewayResponse == Some(StripeCharge(id))
    ensures !r.success ==> r == Declined(error.value)
  {
    if error.Some? then Declined(error.value)
    else PaymentResult(true, Some(id), None, Some(StripeCharge(id)))
  }

  /** The result `refund` returns: on success the refund id is the original id
      prefixed with `refund_`. */
  function RefundResult(error: Option<string>, id: string): (r: PaymentResult)
    ensures r.success <==> error.None?
    ensures r.success ==> r.transactionId == Some("refund_" + id) && r.error.None?
    ensures !r.success ==> r == Declined(error.value)
  {
    if error.Some? then Declined(error.value)
    else PaymentResult(true, Some("refund_" + id), None, None)
  }

  /** `validatePaymentMethod`: a Stripe payment method id starts with `pm_`. */
  function ValidatePaymentMethod(paymentMethodId: string): (ok: bool)
    ensures ok <==> (|paymentMethodId| >= 3
      && paymentMethodId[0] == 'p' && paymentMethodId[1] == 'm' && paymentMethodId[2] == '_')
  {
    StartsWith(paymentMethodId, "pm_")
  }

  class StripeGateway {
    const name: string
    const apiKey: string
    var transactions: map<string, Ledger.Entry>

    ghost predicate Valid()
      reads this
    {
      Ledger.WellFormed(Policy, transactions)
    }

    constructor (apiKey: string)
      ensures Valid() && transactions == map[] && name == "Stripe" && this.apiKey == apiKey
    {
      name := "Stripe";
      this.apiKey := apiKey;
      transactions := map[];
    }

    /** `charge`: validates the amount and, when it is accepted, stores
        `{completed, amount}` under a fresh id built from `stamp`. */
    method Charge(request: PaymentRequest, stamp: string) returns (result: PaymentResult)
      requires Valid()
      modifies this
      ensures Valid()
      ensures var (error, ledger) := Ledger.Charge(Policy, old(transactions), TransactionId(stamp), request.amount);
        transactions == ledger && result == ChargeResult(error, TransactionId(stamp))
    {
      var transactionId := TransactionId(stamp);
      if request.amount <= 0.0 {
        return Declined(Ledger.InvalidAmount);
      }
      if request.amount > 10000.0 {
        return Declined("Amount exceeds limit");
      }
      transactions := transactions[transactionId := Ledger.Entry("completed", request.amount)];
      result := PaymentResult(true, Some(transactionId), None, Some(StripeCharge(transactionId)));
    }

    /** `refund`: rejects an unknown id and an amount above what is left, otherwise
        marks the transaction refunded and lowers its remaining amount. */
    method Refund(transactionId: string, amount: real) returns (result: PaymentResult)
      requires Valid()
      modifies this
      ensures Valid()
      ensures var (error, ledger) := Ledger.Refund(Policy, old(transactions), transactionId, amount);
        transactions == ledger && result == RefundResult(error, transactionId)
    {
      if transactionId !in transactions {
        return Declined("Transaction not found");
      }
      var transaction := transactions[transactionId];
      if amount > transaction.amount {
        return Declined("Refund amount exceeds original charge");
      }
      transaction := transaction.(status := "refunded");
      transaction := transaction.(amount := transaction.amount - amount);
      transactions := transactions[transactionId := transaction];
      result := PaymentResult(true, Some("refund_" + transactionId), None, None);
    }

    /** `getStatus`: "completed", "refunded", or "not_found" for an unknown id. */
    function GetStatus(transactionId: string): (status: string)
      requires Valid()
      reads this
      ensures status == "completed" || status == "refunded" || status == "not_found"
      ensures status == "not_found" <==> transactionId !in transactions
      ensures transactionId in transactions ==> status == transactions[transactionId].status
    {
      Ledger.Status(Policy, transactions, transactionId)
    }
  }

  /** A fresh gateway charges 100 and then refunds 50 of it; an unknown id cannot
      be refunded. */
  method ChargeAndRefundScenario(stamp: string) returns (charge: PaymentResult, refund: PaymentResult, unknown: PaymentResult)
    requires stamp != ""
    ensures charge.success && charge.transactionId == Some("stripe_" + stamp)
    ensures refund.success && refund.transactionId == Some("refund_stripe_" + stamp)
    ensures !unknown.success && unknown.error == Some("Transaction not found")
  {
    var gateway := new StripeGateway("sk_test_xxx");
    charge := gateway.Charge(PaymentRequest("pay_123", 100.0, "USD", "cust_123", "pm_test", None), stamp);
    assert gateway.GetStatus("stripe_" + stamp) == "completed";
    refund := gateway.Refund(charge.transactionId.value, 50.0);
    assert gateway.transactions["stripe_" + stamp] == Ledger.Entry("refunded", 50.0);
    assert "refund_" + charge.transactionId.value == "refund_stripe_" + stamp;
    assert "invalid_tx" != "stripe_" + stamp by { assert ("stripe_" + stamp)[0] == 's'; }
    unknown := gateway.Refund("invalid_tx", 100.0);
  }
}
