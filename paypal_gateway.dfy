/** The PayPal flavour of the payment gateway: a ledger of orders with a ceiling
    of 25000 per charge, upper-case statuses, and payment-method ids that start
    with `paypal_` or contain an `@`. */
module PayPal {
  import opened Optional
  import opened Text
  import opened PaymentTypes
  import Ledger

  const Policy := Ledger.Policy(
    25000.0,
    "Amount exceeds PayPal limit",
    "Order not found",
    "Refund amount exceeds original payment",
    "COMPLETED",
    "REFUNDED",
    "NOT_FOUND")

  /** The id an order is stored under: `paypal_` followed by the caller-supplied
      time-and-random stamp. */
  function OrderId(stamp: string): (id: string)
    ensures StartsWith(id, "paypal_") && |id| == |stamp| + 7
  {
    "paypal_" + stamp
  }

  /** The result `charge` returns; a captured order carries `capture_` + order id. */
  function ChargeResult(error: Option<string>, orderId: string): (r: PaymentResult)
    ensures r.success <==> error.None?
    ensures r.success ==> (r.transactionId == Some(orderId)
      && r.gatewayResponse == Some(PayPalCapture(orderId, "capture_" + orderId)))
    ensures !r.success ==> r == Declined(error.value)
  {
    if error.Some? then Declined(error.value)
    else PaymentResult(true, Some(orderId), None, Some(PayPalCapture(orderId, "capture_" + orderId)))
  }

  /** The result `refund` returns: on success the refund id is `refund_` + order id. */
  function RefundResult(error: Option<string>, orderId: string): (r: PaymentResult)
    ensures r.success <==> error.None?
    ensures r.success ==> r.transactionId == Some("refund_" + orderId) && r.error.None?
    ensures !r.success ==> r == Declined(error.value)
  {
    if error.Some? then Declined(error.value)
    else PaymentResult(true, Some("refund_" + orderId), None, None)
  }

  /** `validatePaymentMethod`: a PayPal id starts with `paypal_` or is an address
      containing `@`. */
  function ValidatePaymentMethod(paymentMethodId: string): (ok: bool)
    ensures ok <==> (|paymentMethodId| >= 7 && paymentMethodId[..7] == "paypal_") || '@' in paymentMethodId
  {
    ContainsChar(paymentMethodId, '@');
    StartsWith(paymentMethodId, "paypal_") || Contains(paymentMethodId, "@")
  }

  class PayPalGateway {
    const name: string
    const clientId: string
    const clientSecret: string
    var orders: map<string, Ledger.Entry>

    ghost predicate Valid()
      reads this
    {
      Ledger.WellFormed(Policy, orders)
    }

    constructor (clientId: string, clientSecret: string)
      ensures Valid() && orders == map[] && name == "PayPal"
      ensures this.clientId == clientId && this.clientSecret == clientSecret
    {
      name := "PayPal";
      this.clientId := clientId;
      this.clientSecret := clientSecret;
      orders := map[];
    }

    /** `charge`: validates the amount and, when it is accepted, stores
        `{COMPLETED, amount}` under a fresh order id built from `stamp`. */
    method Charge(request: PaymentRequest, stamp: string) returns (result: PaymentResult)
      requires Valid()
      modifies this
      ensures Valid()
      ensures var (error, ledger) := Ledger.Charge(Policy, old(orders), OrderId(stamp), request.amount);
        orders == ledger && result == ChargeResult(error, OrderId(stamp))
    {
      var orderId := OrderId(stamp);
      if request.amount <= 0.0 {
        return Declined(Ledger.InvalidAmount);
      }
      if request.amount > 25000.0 {
        return Declined("Amount exceeds PayPal limit");
      }
      orders := orders[orderId := Ledger.Entry("COMPLETED", request.amount)];
      result := PaymentResult(true, Some(orderId), None, Some(PayPalCapture(orderId, "capture_" + orderId)));
    }

    /** `refund`: rejects an unknown order and an amount above what is left,
        otherwise marks the order refunded and lowers its remaining amount. */
    method Refund(transactionId: string, amount: real) returns (result: PaymentResult)
      requires Valid()
      modifies this
      ensures Valid()
      ensures var (error, ledger) := Ledger.Refund(Policy, old(orders), transactionId, amount);
        orders == ledger && result == RefundResult(error, transactionId)
    {
      if transactionId !in orders {
        return Declined("Order not found");
      }
      var order := orders[transactionId];
      if amount > order.amount {
        return Declined("Refund amount exceeds original payment");
      }
      order := order.(status := "REFUNDED");
      order := order.(amount := order.amount - amount);
      orders := orders[transactionId := order];
      result := PaymentResult(true, Some("refund_" + transactionId), None, None);
    }

    /** `getStatus`: "COMPLETED", "REFUNDED", or "NOT_FOUND" for an unknown id. */
    function GetStatus(transactionId: string): (status: string)
      requires Valid()
      reads this
      ensures status == "COMPLETED" || status == "REFUNDED" || status == "NOT_FOUND"
      ensures status == "NOT_FOUND" <==> transactionId !in orders
      ensures transactionId in orders ==> status == orders[transactionId].status
    {
      Ledger.Status(Policy, orders, transactionId)
    }
  }

  /** The PayPal ceiling is inclusive: 25000 is captured, anything above is not. */
  lemma CeilingIsInclusive(ledger: map<string, Ledger.Entry>, id: string, over: real)
    requires over > 25000.0
    ensures Ledger.Charge(Policy, ledger, id, 25000.0).0.None?
    ensures Ledger.Charge(Policy, ledger, id, over) == (Some("Amount exceeds PayPal limit"), ledger)
  {
  }
}
