/** The records the payment-processing example passes between its components. */
module PaymentTypes {
  import opened Optional

  /** A charge request. `metadata` is an optional string-to-string record. */
  datatype PaymentRequest = PaymentRequest(
    id: string,
    amount: real,
    currency: string,
    customerId: string,
    paymentMethodId: string,
    metadata: Option<map<string, string>>)

  /** The provider-specific object a gateway attaches to a successful charge. */
  datatype GatewayResponse =
    | StripeCharge(chargeId: string)
    | PayPalCapture(orderId: string, captureId: string)

  /** The result of every charge or refund. */
  datatype PaymentResult = PaymentResult(
    success: bool,
    transactionId: Option<string>,
    error: Option<string>,
    gatewayResponse: Option<GatewayResponse>)

  /** `{ success: false, error }`. */
  function Declined(error: string): (r: PaymentResult)
    ensures !r.success && r.error == Some(error) && r.transactionId.None?
  {
    PaymentResult(false, None, Some(error), None)
  }

  datatype Customer = Customer(id: string, email: string, name: string, riskScore: real)

  datatype Outcome = Success | Failure

  /** A value stored under a key of an audit event's `details` record. */
  datatype DetailValue =
    | Text(text: string)
    | Number(number: real)
    | TextList(items: seq<string>)
    | Undefined

  /** An audit event; `timestamp` is a point in time in milliseconds. */
  datatype AuditEvent = AuditEvent(
    timestamp: int,
    eventType: string,
    actor: string,
    resource: string,
    action: string,
    outcome: Outcome,
    details: Option<map<string, DetailValue>>)

  datatype FraudCheckResult = FraudCheckResult(
    approved: bool,
    riskScore: real,
    reasons: seq<string>,
    requiresReview: bool)

  datatype Channel = Email | Sms | Push | Webhook

  datatype NotificationPayload = NotificationPayload(
    channel: Channel,
    recipient: string,
    subject: string,
    body: string,
    metadata: Option<map<string, string>>)
}
