/** The payment pipeline: audit the attempt, run the fraud check, charge through
    the gateway, audit the outcome, and email a confirmation on success; refunds
    are audited before and after the gateway call. */
module Processor {
  import opened Optional
  import opened Text
  import opened PaymentTypes
  import Ledger
  import Stripe
  import PayPal
  import Fraud
  import Audit
  import Notifications

  const FraudDeclinedError := "Payment declined due to fraud check"
  const RefundActor := "system"

  /** The gateway a processor charges through: one of the two providers. */
  datatype Gateway = StripeGw(stripe: Stripe.StripeGateway) | PayPalGw(paypal: PayPal.PayPalGateway) {

    function Obj(): object {
      match this
      case StripeGw(s) => s
      case PayPalGw(p) => p
    }

    ghost predicate Valid()
      reads Obj()
    {
      match this
      case StripeGw(s) => s.Valid()
      case PayPalGw(p) => p.Valid()
    }

    /** The provider's ledger. */
    function Entries(): map<string, Ledger.Entry>
      reads Obj()
    {
      match this
      case StripeGw(s) => s.transactions
      case PayPalGw(p) => p.orders
    }

    function Policy(): Ledger.Policy {
      match this
      case StripeGw(_) => Stripe.Policy
      case PayPalGw(_) => PayPal.Policy
    }

    /** The id a charge made with `stamp` is stored under. */
    function NewId(stamp: string): string {
      match this
      case StripeGw(_) => Stripe.TransactionId(stamp)
      case PayPalGw(_) => PayPal.OrderId(stamp)
    }

    function ChargeResult(error: Option<string>, id: string): (r: PaymentResult)
      ensures r.success <==> error.None?
      ensures r.success ==> r.transactionId == Some(id)
      ensures !r.success ==> r == Declined(error.value)
    {
      match this
      case StripeGw(_) => Stripe.ChargeResult(error, id)
      case PayPalGw(_) => PayPal.ChargeResult(error, id)
    }

    function RefundResult(error: Option<string>, id: string): (r: PaymentResult)
      ensures r.success <==> error.None?
      ensures !r.success ==> r == Declined(error.value)
    {
      match this
      case StripeGw(_) => Stripe.RefundResult(error, id)
      case PayPalGw(_) => PayPal.RefundResult(error, id)
    }

    /** `getStatus` of the provider. */
    function Status(id: string): (status: string)
      requires Valid()
      reads Obj()
      ensures status == Ledger.Status(Policy(), Entries(), id)
    {
      match this
      case StripeGw(s) => s.GetStatus(id)
      case PayPalGw(p) => p.GetStatus(id)
    }
  }

  /** `gateway.charge(request)`, dispatched to the provider. */
  method Charge(g: Gateway, request: PaymentRequest, stamp: string) returns (result: PaymentResult)
    requires g.Valid()
    modifies g.Obj()
    ensures g.Valid()
    ensures var (error, entries) := Ledger.Charge(g.Policy(), old(g.Entries()), g.NewId(stamp), request.amount);
      g.Entries() == entries && result == g.ChargeResult(error, g.NewId(stamp))
  {
    match g
    case StripeGw(s) => result := s.Charge(request, stamp);
    case PayPalGw(p) => result := p.Charge(request, stamp);
  }

  /** `gateway.refund(transactionId, amount)`, dispatched to the provider. */
  method Refund(g: Gateway, transactionId: string, amount: real) returns (result: PaymentResult)
    requires g.Valid()
    modifies g.Obj()
    ensures g.Valid()
    ensures var (error, entries) := Ledger.Refund(g.Policy(), old(g.Entries()), transactionId, amount);
      g.Entries() == entries && result == g.RefundResult(error, transactionId)
  {
    match g
    case StripeGw(s) => result := s.Refund(transactionId, amount);
    case PayPalGw(p) => result := p.Refund(transactionId, amount);
  }

  /** The first audit event of a payment: a success initiated by the customer on
      the request. Its details are stated by `EventDetails`. */
  function InitiatedEvent(request: PaymentRequest, customer: Customer, now: int): (e: AuditEvent)
    ensures e.eventType == "PAYMENT_INITIATED" && e.outcome == Success && e.timestamp == now
    ensures e.actor == customer.id && e.resource == request.id
  {
    AuditEvent(now, "PAYMENT_INITIATED", customer.id, request.id, "process_payment", Success,
      Some(map["amount" := Number(request.amount), "currency" := Text(request.currency)]))
  }

  /** The audit event of a payment the fraud check turned down: a failure on the
      customer's request. Its details are stated by `EventDetails`. */
  function FraudRejectedEvent(request: PaymentRequest, customer: Customer, now: int, reasons: seq<string>)
    : (e: AuditEvent)
    ensures e.eventType == "FRAUD_REJECTED" && e.outcome == Failure && e.timestamp == now
    ensures e.actor == customer.id && e.resource == request.id
  {
    AuditEvent(now, "FRAUD_REJECTED", customer.id, request.id, "fraud_check", Failure,
      Some(map["reasons" := TextList(reasons)]))
  }

  /** The audit event of a charge: its type and outcome follow the result, and
      the transaction id is recorded, as undefined when there is none. */
  function ChargeEvent(request: PaymentRequest, customer: Customer, now: int, result: PaymentResult): (e: AuditEvent)
    ensures e.outcome == Success <==> result.success
    ensures e.eventType == (if result.success then "PAYMENT_SUCCESS" else "PAYMENT_FAILED")
    ensures e.actor == customer.id && e.resource == request.id
  {
    AuditEvent(now, if result.success then "PAYMENT_SUCCESS" else "PAYMENT_FAILED", customer.id, request.id, "charge",
      if result.success then Success else Failure,
      Some(map["transactionId" := if result.transactionId.Some? then Text(result.transactionId.value) else Undefined]))
  }

  /** The audit event opening a refund: a success made by the system on the
      transaction. Its details are stated by `EventDetails`. */
  function RefundInitiatedEvent(transactionId: string, amount: real, reason: string, now: int): (e: AuditEvent)
    ensures e.eventType == "REFUND_INITIATED" && e.outcome == Success && e.timestamp == now
    ensures e.actor == RefundActor && e.resource == transactionId
  {
    AuditEvent(now, "REFUND_INITIATED", RefundActor, transactionId, "refund", Success,
      Some(map["amount" := Number(amount), "reason" := Text(reason)]))
  }

  /** The details the opening events record: the amount and the currency of a
      payment, the reasons of a fraud rejection, the amount and the reason of a
      refund, and nothing else. */
  lemma EventDetails(request: PaymentRequest, customer: Customer, now: int, reasons: seq<string>,
                     transactionId: string, amount: real, reason: string)
    ensures var d := InitiatedEvent(request, customer, now).details;
      d.Some? && d.value.Keys == {"amount", "currency"}
      && d.value["amount"] == Number(request.amount) && d.value["currency"] == Text(request.currency)
    ensures var d := FraudRejectedEvent(request, customer, now, reasons).details;
      d.Some? && d.value.Keys == {"reasons"} && d.value["reasons"] == TextList(reasons)
    ensures var d := RefundInitiatedEvent(transactionId, amount, reason, now).details;
      d.Some? && d.value.Keys == {"amount", "reason"}
      && d.value["amount"] == Number(amount) && d.value["reason"] == Text(reason)
  {
  }

  /** The audit event closing a refund; it carries no details of its own. */
  function RefundCompletedEvent(transactionId: string, now: int, result: PaymentResult): (e: AuditEvent)
    ensures e.outcome == Success <==> result.success
    ensures e.eventType == (if result.success then "REFUND_SUCCESS" else "REFUND_FAILED")
    ensures e.actor == RefundActor && e.resource == transactionId && e.details.None?
  {
    AuditEvent(now, if result.success then "REFUND_SUCCESS" else "REFUND_FAILED", RefundActor, transactionId,
      "refund_complete", if result.success then Success else Failure, None)
  }

  /** The confirmation email for a successful payment; `numberText` renders the
      amount as JavaScript prints a number. */
  function ConfirmationEmail(request: PaymentRequest, customer: Customer, numberText: real -> string)
    : (p: NotificationPayload)
    ensures p.channel == Email && p.recipient == customer.email
  {
    NotificationPayload(Email, customer.email, "Payment Confirmation",
      "Your payment of " + numberText(request.amount) + " " + request.currency + " was successful.", None)
  }

  class PaymentProcessor {
    const gateway: Gateway
    const fraudDetector: Fraud.FraudDetector
    const auditLogger: Audit.AuditLogger
    const notificationService: Notifications.NotificationService
    const numberText: real -> string

    constructor (gateway: Gateway, fraudDetector: Fraud.FraudDetector, auditLogger: Audit.AuditLogger,
                 notificationService: Notifications.NotificationService, numberText: real -> string)
      ensures this.gateway == gateway && this.fraudDetector == fraudDetector
      ensures this.auditLogger == auditLogger && this.notificationService == notificationService
      ensures this.numberText == numberText
    {
      this.gateway := gateway;
      this.fraudDetector := fraudDetector;
      this.auditLogger := auditLogger;
      this.notificationService := notificationService;
      this.numberText := numberText;
    }

    /** The fraud verdict `processPayment` acts on, from the detector's state
        before the call. */
    ghost function Verdict(request: PaymentRequest, customer: Customer, now: int): FraudCheckResult
      reads fraudDetector
    {
      Fraud.Assess(fraudDetector.highRiskThreshold, customer.riskScore, fraudDetector.CheckVelocity(customer.id, now),
                   Fraud.CheckAmountAnomaly(request.amount), Fraud.CheckGeographic(request.metadata))
    }

    /** Steps 1 and 2 of `processPayment`: audit the attempt, then run the
        fraud check, which records the attempt in the detector. */
    method Screen(request: PaymentRequest, customer: Customer, now: int, nodeEnv: Option<string>)
      returns (verdict: FraudCheckResult)
      requires gateway.Valid() && gateway.Obj() != fraudDetector && gateway.Obj() != auditLogger.storage
      modifies fraudDetector, auditLogger.storage
      ensures gateway.Valid() && gateway.Entries() == old(gateway.Entries())
      ensures verdict == old(Verdict(request, customer, now))
      ensures fraudDetector.recentTransactions == old(fraudDetector.recentTransactions)[customer.id :=
        Fraud.KeepAfter(old(fraudDetector.History(customer.id)) + [now], fraudDetector.WindowStart(now))]
      ensures auditLogger.storage.events
        == old(auditLogger.storage.events)
           + [Audit.Enrich(InitiatedEvent(request, customer, now), auditLogger.serviceName, Audit.Environment(nodeEnv))]
    {
      auditLogger.Log(InitiatedEvent(request, customer, now), nodeEnv);
      verdict := fraudDetector.CheckTransaction(request, customer, now);
    }

    /** A payment the fraud check turned down: its rejection is audited with the
        reasons and nothing else is touched. */
    method Decline(request: PaymentRequest, customer: Customer, now: int, reasons: seq<string>, nodeEnv: Option<string>)
      returns (result: PaymentResult)
      requires gateway.Valid() && gateway.Obj() != auditLogger.storage
      modifies auditLogger.storage
      ensures gateway.Valid() && gateway.Entries() == old(gateway.Entries())
      ensures result == Declined(FraudDeclinedError)
      ensures auditLogger.storage.events
        == old(auditLogger.storage.events)
           + [Audit.Enrich(FraudRejectedEvent(request, customer, now, reasons), auditLogger.serviceName,
                           Audit.Environment(nodeEnv))]
    {
      auditLogger.Log(FraudRejectedEvent(request, customer, now, reasons), nodeEnv);
      result := Declined(FraudDeclinedError);
    }

    /** Steps 3 to 5 of `processPayment`, once the fraud check has approved:
        charge, audit the outcome, and send the confirmation iff the charge
        succeeded. */
    method ChargeAndConfirm(request: PaymentRequest, customer: Customer, now: int, stamp: string,
                            nodeEnv: Option<string>)
      returns (result: PaymentResult)
      requires gateway.Valid()
      modifies gateway.Obj(), auditLogger.storage, notificationService
      ensures gateway.Valid()
      ensures var (error, entries) := Ledger.Charge(gateway.Policy(), old(gateway.Entries()), gateway.NewId(stamp), request.amount);
        && result == gateway.ChargeResult(error, gateway.NewId(stamp))
        && gateway.Entries() == entries
      ensures auditLogger.storage.events
        == old(auditLogger.storage.events)
           + [Audit.Enrich(ChargeEvent(request, customer, now, result), auditLogger.serviceName, Audit.Environment(nodeEnv))]
      ensures notificationService.providers == old(notificationService.providers)
      ensures result.success ==>
        var email := ConfirmationEmail(request, customer, numberText);
        var retries := notificationService.retryAttempts;
        && notificationService.queue
           == old(notificationService.queue)
              + (if Notifications.Requeues(notificationService.providers, retries, email) then [email] else [])
        && notificationService.trace
           == old(notificationService.trace) + Notifications.SendOutcome(notificationService.providers, retries, email).1
      ensures !result.success ==>
        notificationService.queue == old(notificationService.queue)
        && notificationService.trace == old(notificationService.trace)
    {
      result := Charge(gateway, request, stamp);
      auditLogger.Log(ChargeEvent(request, customer, now, result), nodeEnv);
      if result.success {
        var _ := notificationService.Send(ConfirmationEmail(request, customer, numberText));
      }
    }

    /** `processPayment`: two audit events on every path (the attempt, then the
        fraud rejection or the charge outcome); a payment the fraud check turns
        down never reaches the gateway nor the notifier; otherwise the gateway's
        result is returned unchanged and a confirmation is sent iff it succeeded.
        The detector records the attempt on every path. */
    method ProcessPayment(request: PaymentRequest, customer: Customer, now: int, stamp: string, nodeEnv: Option<string>)
      returns (result: PaymentResult)
      requires gateway.Valid()
      modifies gateway.Obj(), fraudDetector, auditLogger.storage, notificationService
      ensures gateway.Valid()
      ensures fraudDetector.recentTransactions == old(fraudDetector.recentTransactions)[customer.id :=
        Fraud.KeepAfter(old(fraudDetector.History(customer.id)) + [now], fraudDetector.WindowStart(now))]
      ensures |auditLogger.storage.events| == |old(auditLogger.storage.events)| + 2
      ensures auditLogger.storage.events[..|old(auditLogger.storage.events)| + 1]
        == old(auditLogger.storage.events)
           + [Audit.Enrich(InitiatedEvent(request, customer, now), auditLogger.serviceName, Audit.Environment(nodeEnv))]
      ensures notificationService.providers == old(notificationService.providers)
      ensures !old(Verdict(request, customer, now)).approved ==>
        && result == Declined(FraudDeclinedError)
        && gateway.Entries() == old(gateway.Entries())
        && notificationService.queue == old(notificationService.queue)
        && notificationService.trace == old(notificationService.trace)
        && auditLogger.storage.events[|auditLogger.storage.events| - 1]
           == Audit.Enrich(FraudRejectedEvent(request, customer, now, old(Verdict(request, customer, now)).reasons),
                           auditLogger.serviceName, Audit.Environment(nodeEnv))
      ensures old(Verdict(request, customer, now)).approved ==>
        var (error, entries) := Ledger.Charge(gateway.Policy(), old(gateway.Entries()), gateway.NewId(stamp), request.amount);
        && result == gateway.ChargeResult(error, gateway.NewId(stamp))
        && gateway.Entries() == entries
        && auditLogger.storage.events[|auditLogger.storage.events| - 1]
           == Audit.Enrich(ChargeEvent(request, customer, now, result), auditLogger.serviceName, Audit.Environment(nodeEnv))
      ensures old(Verdict(request, customer, now)).approved && result.success ==>
        var email := ConfirmationEmail(request, customer, numberText);
        var retries := notificationService.retryAttempts;
        && notificationService.queue
           == old(notificationService.queue)
              + (if Notifications.Requeues(notificationService.providers, retries, email) then [email] else [])
        && notificationService.trace
           == old(notificationService.trace) + Notifications.SendOutcome(notificationService.providers, retries, email).1
      ensures old(Verdict(request, customer, now)).approved && !result.success ==>
        notificationService.queue == old(notificationService.queue)
        && notificationService.trace == old(notificationService.trace)
    {
      assert gateway.Obj() != fraudDetector && gateway.Obj() != auditLogger.storage && gateway.Obj() != notificationService by {
        match gateway
        case StripeGw(s) =>
        case PayPalGw(p) =>
      }
      var fraudResult := Screen(request, customer, now, nodeEnv);
      ghost var logged := auditLogger.storage.events;
      if !fraudResult.approved {
        result := Decline(request, customer, now, fraudResult.reasons, nodeEnv);
        SnocParts(logged, Audit.Enrich(FraudRejectedEvent(request, customer, now, fraudResult.reasons),
                                       auditLogger.serviceName, Audit.Environment(nodeEnv)));
        return;
      }

      result := ChargeAndConfirm(request, customer, now, stamp, nodeEnv);
      SnocParts(logged, Audit.Enrich(ChargeEvent(request, customer, now, result), auditLogger.serviceName,
                                     Audit.Environment(nodeEnv)));
    }

    /** `refundPayment`: audits the request, refunds through the gateway, audits
        the outcome, and returns the gateway's result unchanged. */
    method RefundPayment(transactionId: string, amount: real, reason: string, now: int, nodeEnv: Option<string>)
      returns (result: PaymentResult)
      requires gateway.Valid()
      modifies gateway.Obj(), auditLogger.storage
      ensures gateway.Valid()
      ensures var (error, entries) := Ledger.Refund(gateway.Policy(), old(gateway.Entries()), transactionId, amount);
        && result == gateway.RefundResult(error, transactionId)
        && gateway.Entries() == entries
      ensures auditLogger.storage.events
        == old(auditLogger.storage.events)
           + [Audit.Enrich(RefundInitiatedEvent(transactionId, amount, reason, now), auditLogger.serviceName,
                           Audit.Environment(nodeEnv)),
              Audit.Enrich(RefundCompletedEvent(transactionId, now, result), auditLogger.serviceName,
                           Audit.Environment(nodeEnv))]
    {
      auditLogger.Log(RefundInitiatedEvent(transactionId, amount, reason, now), nodeEnv);
      result := Refund(gateway, transactionId, amount);
      auditLogger.Log(RefundCompletedEvent(transactionId, now, result), nodeEnv);
    }

    /** `getTransactionStatus`: the gateway's status for the id. */
    function GetTransactionStatus(transactionId: string): (status: string)
      requires gateway.Valid()
      reads gateway.Obj()
      ensures status == Ledger.Status(gateway.Policy(), gateway.Entries(), transactionId)
      ensures transactionId !in gateway.Entries() ==> status == gateway.Policy().notFoundStatus
    {
      gateway.Status(transactionId)
    }
  }

  /** The parts of a sequence with one more element at its end. */
  lemma SnocParts<T>(s: seq<T>, x: T)
    ensures (s + [x])[..|s|] == s && (s + [x])[|s|] == x
  {
  }

  /** A processor over a fresh Stripe gateway, detector, logger and notifier,
      with every option at its default. */
  method NewStripeProcessor(numberText: real -> string) returns (processor: PaymentProcessor)
    ensures fresh(processor) && fresh(processor.gateway.Obj()) && fresh(processor.fraudDetector)
    ensures fresh(processor.auditLogger.storage) && fresh(processor.notificationService)
    ensures processor.gateway.StripeGw? && processor.gateway.Valid() && processor.gateway.Entries() == map[]
    ensures processor.fraudDetector.recentTransactions == map[]
    ensures processor.fraudDetector.highRiskThreshold == Fraud.DefaultHighRiskThreshold
    ensures processor.fraudDetector.maxTransactionsPerWindow == Fraud.DefaultMaxTransactionsPerWindow
    ensures processor.auditLogger.storage.events == []
    ensures processor.numberText == numberText
  {
    var gateway := new Stripe.StripeGateway("sk_test_xxx");
    var fraudDetector := new Fraud.FraudDetector(None, None, None);
    var storage := new Audit.InMemoryAuditStorage();
    var auditLogger := new Audit.AuditLogger(storage, None);
    var notificationService := new Notifications.NotificationService(None);
    processor := new PaymentProcessor(StripeGw(gateway), fraudDetector, auditLogger, notificationService, numberText);
  }

  /** A customer with baseline risk 0.1 paying 100 USD through a fresh Stripe
      processor is charged, gets a transaction id, and the charge is stored. */
  method ValidPaymentScenario(now: int, stamp: string, numberText: real -> string) returns (result: PaymentResult)
    ensures result.success && result.transactionId == Some("stripe_" + stamp)
  {
    var processor := NewStripeProcessor(numberText);
    var customer := Customer("cust_123", "test@example.com", "Test User", 0.1);
    var request := PaymentRequest("pay_123", 100.0, "USD", "cust_123", "pm_test", None);
    assert !Fraud.IsWholeThousands(100.0) || 100.0 <= 1000.0;
    result := processor.ProcessPayment(request, customer, now, stamp, None);
  }

  /** An amount of 0 passes the fraud check but is refused by the gateway. */
  method ZeroAmountScenario(now: int, stamp: string, numberText: real -> string) returns (result: PaymentResult)
    ensures !result.success && result.error == Some(Ledger.InvalidAmount)
  {
    var processor := NewStripeProcessor(numberText);
    var customer := Customer("cust_123", "test@example.com", "Test User", 0.1);
    var request := PaymentRequest("pay_123", 0.0, "USD", "cust_123", "pm_test", None);
    result := processor.ProcessPayment(request, customer, now, stamp, None);
  }

  /** A customer with baseline risk 0.9 is declined by the fraud check, with an
      error that mentions fraud, and nothing is charged. */
  method HighRiskScenario(now: int, stamp: string, numberText: real -> string) returns (result: PaymentResult)
    ensures !result.success && result.error.Some? && Contains(result.error.value, "fraud")
  {
    var processor := NewStripeProcessor(numberText);
    var customer := Customer("cust_123", "test@example.com", "Test User", 0.9);
    var request := PaymentRequest("pay_123", 100.0, "USD", "cust_123", "pm_test", None);
    result := processor.ProcessPayment(request, customer, now, stamp, None);
    FraudErrorMentionsFraud();
  }

  lemma FraudErrorMentionsFraud()
    ensures Contains(FraudDeclinedError, "fraud")
  {
    var prefix, suffix := "Payment declined due to ", " check";
    assert FraudDeclinedError == prefix + "fraud" + suffix;
    ContainsMiddle(prefix, "fraud", suffix);
  }

  /** A fresh Stripe processor after one payment of 100 by a low-risk customer. */
  method PaidProcessor(now: int, stamp: string, numberText: real -> string)
    returns (processor: PaymentProcessor, payment: PaymentResult)
    ensures payment.success && payment.transactionId == Some("stripe_" + stamp)
    ensures processor.gateway.Valid()
    ensures processor.gateway.Entries().Keys == {"stripe_" + stamp}
    ensures processor.gateway.Entries()["stripe_" + stamp] == Ledger.Entry("completed", 100.0)
    ensures processor.gateway.StripeGw?
    ensures fresh(processor.gateway.Obj()) && fresh(processor.auditLogger.storage)
  {
    processor := NewStripeProcessor(numberText);
    var customer := Customer("cust_123", "test@example.com", "Test User", 0.1);
    var request := PaymentRequest("pay_123", 100.0, "USD", "cust_123", "pm_test", None);
    payment := processor.ProcessPayment(request, customer, now, stamp, None);
  }

  /** Half of a processed payment is refunded. */
  method RefundScenario(now: int, stamp: string, numberText: real -> string)
    returns (payment: PaymentResult, refund: PaymentResult)
    ensures payment.success && refund.success
    ensures refund.transactionId == Some("refund_stripe_" + stamp)
  {
    var processor;
    processor, payment := PaidProcessor(now, stamp, numberText);
    refund := processor.RefundPayment(payment.transactionId.value, 50.0, "Customer request", now, None);
    assert "refund_" + payment.transactionId.value == "refund_stripe_" + stamp;
  }

  /** A refund of an id the gateway never issued fails with an error that says it
      was not found. */
  method UnknownRefundScenario(now: int, numberText: real -> string) returns (result: PaymentResult)
    ensures !result.success && result.error.Some? && Contains(result.error.value, "not found")
  {
    var processor := NewStripeProcessor(numberText);
    result := processor.RefundPayment("invalid_tx", 100.0, "Test", now, None);
    assert OccursAt("Transaction not found", "not found", 12);
  }
}
