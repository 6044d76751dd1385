# A verified model of the cursor-training examples and helper tools

This project models, in Dafny, the parts of the cursor-training repository that
carry behaviour:

- **Payment processing** (`examples/03-agent-docs-and-mermaid`):
  - two payment gateways (Stripe and PayPal) over a simulated ledger;
  - the fraud heuristic, which adds three penalties to a baseline risk and keeps a velocity history per customer;
  - the audit logger and its in-memory storage;
  - the notification service, with its retry loop and retry queue;
  - the `PaymentProcessor` that chains them: audit, fraud check, charge, audit, confirmation email.
- **The user service** (`examples/01-tabs-refactor`):
  - name, email and role validators;
  - create, read, update, delete and list over an insertion-ordered store;
  - three text formatters.
- **State transitions of the to-do list app** (`examples/02-debug-and-browser-agent`). `deleteTask` is kept with its deliberate off-by-one: it removes the entry after the one selected.
- **The test-summary script** (`cursor-config/skills/scripts/run_tests_and_summarize.js`):
  - the line-by-line Jest output parser, including the regular expression that captures a test name;
  - the fix classifier;
  - the Markdown report.
- **Four tools of the training MCP server** (`cursor-config/mcp/mcp-server/index.js`):
  - exercise hints with a clamped level;
  - case-insensitive component guidelines;
  - extraction of a section from the training document;
  - the repository listing with its 50-entry cap.

## Modelling choices

- Classes whose fields the source updates in place are Dafny classes:
  - the gateways with their ledger `map`;
  - the detector with its history `map`;
  - the audit storage with its event `seq`;
  - the notification service with its provider `map`, queue `seq` and retry count;
  - the processor;
  - the user store.
- Pure functions are Dafny functions. Loops (the retry loop, `sendBatch`, `processQueue`, the parser, the report builder, the section scan, the directory walk) are methods. Each is proved against a function that specifies it.
- The two gateways share one `Ledger` module. Each gateway's constants (ceiling, messages, status strings) are a `Policy` value.
- The `PaymentGateway` interface is the datatype `Processor.Gateway` over the two gateway classes.
- Amounts and risk scores are exact `real`s.
- Clock, randomness and environment are explicit parameters:
  - an instant `now` in milliseconds;
  - a `stamp` string standing for the `Date.now()`/`Math.random()` part of fresh ids;
  - `nodeEnv` for `process.env.NODE_ENV`;
  - `iso` for `toISOString`;
  - `numberText` for JavaScript's number-to-string.
- A notification provider is a function from a payload and an attempt number to `Delivered`, `Declined` (resolved to false) or `Threw`. The provider calls and the `attempt * 1000` ms pauses of `send` are recorded in a ghost trace.
- The filesystem reads of the MCP tools become parameters:
  - the training document is an `Option<string>`;
  - the directory is a tree of `Node`s.
- `processQueue` calls `send`, and `send` re-appends every payload whose attempts all fail. So after `processQueue` the queue holds exactly the payloads that failed again, in order (`Notifications.NotificationService.ProcessQueue`).
- Lengths of user names and emails are JavaScript `length`s: UTF-16 code units, where a character beyond U+FFFF counts twice (`Text.Utf16Length`).

## Model

| member | source | states |
|---|---|---|
| Ledger.Charge | examples/03-agent-docs-and-mermaid/src/gateways/StripeGateway.ts:13-36 | fails iff amount ≤ 0 ("Invalid amount") or above the ceiling (limit message), ledger unchanged on failure; on success exactly one new entry `{completed, amount}` under the new id and no other entry changes; well-formedness preserved |
| Ledger.Refund | examples/03-agent-docs-and-mermaid/src/gateways/StripeGateway.ts:38-56 | succeeds iff the id is known and the amount is at most what is left; not-found checked before exceeds; on success the entry becomes refunded with its remaining amount lowered by exactly the refund, never below 0, others unchanged |
| Ledger.Status | examples/03-agent-docs-and-mermaid/src/gateways/StripeGateway.ts:58-61 | an unknown id gives the provider's not-found status; a known id gives its stored status |
| Ledger.ChargeThenStatus | examples/03-agent-docs-and-mermaid/src/gateways/StripeGateway.ts:26-35 | round trip: after a successful charge the new id reports the completed status |
| Ledger.FullRefundExhausts | examples/03-agent-docs-and-mermaid/src/gateways/StripeGateway.ts:45-50 | refunding a charge's whole amount leaves it refunded with 0 left, after which any positive refund fails with the exceeds error and changes nothing |
| Stripe.TransactionId | examples/03-agent-docs-and-mermaid/src/gateways/StripeGateway.ts:15 | the id is `stripe_` followed by the stamp |
| Stripe.ChargeResult | examples/03-agent-docs-and-mermaid/src/gateways/StripeGateway.ts:31-35 | success iff no error; a success carries the id and a Stripe response with that id; a failure is exactly `{success: false, error}` |
| Stripe.RefundResult | examples/03-agent-docs-and-mermaid/src/gateways/StripeGateway.ts:52-55 | success iff no error; the refund id is `refund_` + original id |
| Stripe.ValidatePaymentMethod | examples/03-agent-docs-and-mermaid/src/gateways/StripeGateway.ts:63-66 | true iff the id starts with `pm_` |
| Stripe.StripeGateway.constructor | examples/03-agent-docs-and-mermaid/src/gateways/StripeGateway.ts:9-11 | empty, well-formed ledger; name "Stripe" |
| Stripe.StripeGateway.Charge | examples/03-agent-docs-and-mermaid/src/gateways/StripeGateway.ts:13-36 | new ledger and result are exactly `Ledger.Charge` with the 10000 ceiling; ledger stays well-formed |
| Stripe.StripeGateway.Refund | examples/03-agent-docs-and-mermaid/src/gateways/StripeGateway.ts:38-56 | new ledger and result are exactly `Ledger.Refund` with Stripe's messages |
| Stripe.StripeGateway.GetStatus | examples/03-agent-docs-and-mermaid/src/gateways/StripeGateway.ts:58-61 | one of completed/refunded/not_found; not_found iff the id is unknown |
| Stripe.ChargeAndRefundScenario | examples/03-agent-docs-and-mermaid/src/gateways/StripeGateway.ts:13-56 | charging 100 then refunding 50 succeeds with `stripe_`/`refund_stripe_` ids; refunding an unknown id fails with "Transaction not found" |
| PayPal.OrderId | examples/03-agent-docs-and-mermaid/src/gateways/PayPalGateway.ts:17 | the id is `paypal_` followed by the stamp |
| PayPal.ChargeResult | examples/03-agent-docs-and-mermaid/src/gateways/PayPalGateway.ts:33-37 | success iff no error; a success carries the order id and a capture id `capture_` + order id |
| PayPal.RefundResult | examples/03-agent-docs-and-mermaid/src/gateways/PayPalGateway.ts:54-57 | success iff no error; the refund id is `refund_` + order id |
| PayPal.ValidatePaymentMethod | examples/03-agent-docs-and-mermaid/src/gateways/PayPalGateway.ts:65-68 | true iff the id starts with `paypal_` or contains `@` |
| PayPal.PayPalGateway.constructor | examples/03-agent-docs-and-mermaid/src/gateways/PayPalGateway.ts:10-13 | empty, well-formed order ledger; name "PayPal"; both credentials kept |
| PayPal.PayPalGateway.Charge | examples/03-agent-docs-and-mermaid/src/gateways/PayPalGateway.ts:15-38 | new ledger and result are exactly `Ledger.Charge` with the 25000 ceiling and upper-case statuses |
| PayPal.PayPalGateway.Refund | examples/03-agent-docs-and-mermaid/src/gateways/PayPalGateway.ts:40-58 | new ledger and result are exactly `Ledger.Refund` with PayPal's messages |
| PayPal.PayPalGateway.GetStatus | examples/03-agent-docs-and-mermaid/src/gateways/PayPalGateway.ts:60-63 | one of COMPLETED/REFUNDED/NOT_FOUND; NOT_FOUND iff the id is unknown |
| PayPal.CeilingIsInclusive | examples/03-agent-docs-and-mermaid/src/gateways/PayPalGateway.ts:24-26 | 25000 is charged; any larger amount fails with "Amount exceeds PayPal limit" and leaves the ledger unchanged |
| Fraud.OrDefault | examples/03-agent-docs-and-mermaid/src/security/FraudDetector.ts:14-16 | `option \|\| default`: a missing or zero option falls back to the default |
| Fraud.FraudDetector.constructor | examples/03-agent-docs-and-mermaid/src/security/FraudDetector.ts:9-17 | window 3600 s, maximum 10 and threshold 0.7 unless given non-zero; empty history |
| Fraud.CheckAmountAnomaly | examples/03-agent-docs-and-mermaid/src/security/FraudDetector.ts:71-81 | fails iff amount > 5000 or a whole multiple of 1000 above 1000; the large-amount reason takes precedence; a pass has an empty reason |
| Fraud.CheckGeographic | examples/03-agent-docs-and-mermaid/src/security/FraudDetector.ts:83-94 | fails iff metadata has a country in {XX, YY, ZZ}; missing metadata or country passes |
| Fraud.KeepAfter | examples/03-agent-docs-and-mermaid/src/security/FraudDetector.ts:102 | the filter keeps exactly the times after the window start, and as many as `CountAfter` counts |
| Fraud.KeepAfterAll | examples/03-agent-docs-and-mermaid/src/security/FraudDetector.ts:102 | pruning a history that lies wholly inside the window keeps all of it |
| Fraud.FraudDetector.CheckVelocity | examples/03-agent-docs-and-mermaid/src/security/FraudDetector.ts:58-69 | fails iff the number of recorded times after `now - window*1000` is at least the maximum |
| Fraud.FraudDetector.RecordTransaction | examples/03-agent-docs-and-mermaid/src/security/FraudDetector.ts:96-105 | the customer's history becomes the old history plus `now`, pruned to the window; other customers untouched |
| Fraud.Reasons | examples/03-agent-docs-and-mermaid/src/security/FraudDetector.ts:20-42 | one reason per failing check |
| Fraud.Assess | examples/03-agent-docs-and-mermaid/src/security/FraudDetector.ts:47-55 | approved iff the unclamped score is below the threshold; review iff 0.5 ≤ score < threshold (so review implies approved); reported score = min(score, 1); reasons in check order |
| Fraud.FraudDetector.CheckTransaction | examples/03-agent-docs-and-mermaid/src/security/FraudDetector.ts:19-56 | result is `Assess` of the baseline plus 0.2/0.15/0.25 for failing velocity (against the history before the call)/amount/geography; the call is recorded whatever the verdict |
| Fraud.FraudDetector.GetRiskScore | examples/03-agent-docs-and-mermaid/src/security/FraudDetector.ts:107-111 | 0.05 per recorded time, capped at 0.5 |
| Fraud.CheckInsideWindow | examples/03-agent-docs-and-mermaid/src/security/FraudDetector.ts:58-69 | with a history wholly inside the window, the velocity check sees all of it and the history grows by `now` |
| Fraud.VelocityScenario | examples/03-agent-docs-and-mermaid/src/security/FraudDetector.ts:19-69 | with window 60 s and maximum 3, the fifth check within a minute fails velocity only and scores above the baseline |
| Fraud.DefaultThresholdDecides | examples/03-agent-docs-and-mermaid/src/security/FraudDetector.ts:47-48 | with the default threshold and amount 100, baseline 0.1 with clean checks is approved without review or reasons; baseline 0.9 is rejected whatever the velocity and geography checks say |
| Audit.Select | examples/03-agent-docs-and-mermaid/src/audit/AuditLogger.ts:15-24 | the filter keeps exactly the events equal on every given field; the empty filter keeps everything |
| Audit.SelectAppend | examples/03-agent-docs-and-mermaid/src/audit/AuditLogger.ts:11-24 | saving one event extends every query's answer by that event iff it matches, keeping earlier answers in order |
| Audit.InMemoryAuditStorage.Save | examples/03-agent-docs-and-mermaid/src/audit/AuditLogger.ts:11-13 | appends exactly the event |
| Audit.InMemoryAuditStorage.Query | examples/03-agent-docs-and-mermaid/src/audit/AuditLogger.ts:15-24 | the stored events matching the filter, in saved order |
| Audit.InMemoryAuditStorage.GetAll | examples/03-agent-docs-and-mermaid/src/audit/AuditLogger.ts:26-28 | all stored events, i.e. the query with no filter |
| Audit.Environment | examples/03-agent-docs-and-mermaid/src/audit/AuditLogger.ts:46 | `NODE_ENV \|\| 'development'`: never empty |
| Audit.Enrich | examples/03-agent-docs-and-mermaid/src/audit/AuditLogger.ts:41-48 | every field but `details` kept; details are the caller's plus `service` and `environment`, which override same-named keys |
| Audit.EnrichKeepsMatches | examples/03-agent-docs-and-mermaid/src/audit/AuditLogger.ts:41-50 | enrichment never changes which queries an event answers |
| Audit.AuditLogger.constructor | examples/03-agent-docs-and-mermaid/src/audit/AuditLogger.ts:35-38 | service name defaults to "payment-service" |
| Audit.AuditLogger.Log | examples/03-agent-docs-and-mermaid/src/audit/AuditLogger.ts:40-56 | stores exactly one event, the enriched copy |
| Audit.AuditLogger.GetEventsByActor | examples/03-agent-docs-and-mermaid/src/audit/AuditLogger.ts:58-60 | exactly the stored events with that actor |
| Audit.AuditLogger.GetEventsByResource | examples/03-agent-docs-and-mermaid/src/audit/AuditLogger.ts:62-64 | exactly the stored events with that resource |
| Audit.AuditLogger.GetFailedEvents | examples/03-agent-docs-and-mermaid/src/audit/AuditLogger.ts:66-68 | exactly the stored events with outcome failure |
| Audit.AuditLogger.GetEventsByType | examples/03-agent-docs-and-mermaid/src/audit/AuditLogger.ts:70-72 | exactly the stored events of that type |
| Audit.LogThenQueryByActor | examples/03-agent-docs-and-mermaid/src/audit/AuditLogger.ts:40-60 | after logging, the actor query returns the earlier answer followed by the new event |
| Notifications.DefaultProvider | examples/03-agent-docs-and-mermaid/src/notifications/NotificationService.ts:8-36 | the built-in providers always resolve to true |
| Notifications.DefaultProviders | examples/03-agent-docs-and-mermaid/src/notifications/NotificationService.ts:46-49 | providers for email, SMS and webhook and none for push |
| Notifications.NotificationService.constructor | examples/03-agent-docs-and-mermaid/src/notifications/NotificationService.ts:43-50 | retry count 3 unless given; the three default providers; empty queue |
| Notifications.NotificationService.RegisterProvider | examples/03-agent-docs-and-mermaid/src/notifications/NotificationService.ts:52-54 | replaces that channel's provider only |
| Notifications.Run | examples/03-agent-docs-and-mermaid/src/notifications/NotificationService.ts:64-76 | with no attempts left the loop fails with no calls |
| Notifications.RunDelivers | examples/03-agent-docs-and-mermaid/src/notifications/NotificationService.ts:64-70 | the loop succeeds iff some attempt from 1 to `retryAttempts` delivers |
| Notifications.RunCallCount | examples/03-agent-docs-and-mermaid/src/notifications/NotificationService.ts:64-76 | at most `retryAttempts` calls, exactly that many when nothing delivers, none when `retryAttempts` ≤ 0 |
| Notifications.RunCallsInRange | examples/03-agent-docs-and-mermaid/src/notifications/NotificationService.ts:64-66 | every call is an attempt in range with the provider's own outcome |
| Notifications.RunStopsAtSuccess | examples/03-agent-docs-and-mermaid/src/notifications/NotificationService.ts:67-69 | nothing follows a delivering call |
| Notifications.RunPausesOnlyAfterThrow | examples/03-agent-docs-and-mermaid/src/notifications/NotificationService.ts:70-74 | every pause follows a thrown, non-final attempt and lasts 1000 ms × its number; a false result is retried at once |
| Notifications.RunPausesAfterEveryThrow | examples/03-agent-docs-and-mermaid/src/notifications/NotificationService.ts:70-74 | every thrown, non-final attempt is followed by its pause |
| Notifications.SendOutcome | examples/03-agent-docs-and-mermaid/src/notifications/NotificationService.ts:56-81 | no provider: failure with no calls; otherwise the retry loop from attempt 1 |
| Notifications.NotificationService.Send | examples/03-agent-docs-and-mermaid/src/notifications/NotificationService.ts:56-81 | result and calls/pauses are `SendOutcome`; the payload is queued once iff a provider exists and no attempt delivered |
| Notifications.CountDeliveredSnoc | examples/03-agent-docs-and-mermaid/src/notifications/NotificationService.ts:87-94 | one more payload adds one to the delivered count iff it is delivered |
| Notifications.RequeuedSnoc | examples/03-agent-docs-and-mermaid/src/notifications/NotificationService.ts:78-79 | one more payload is appended to the queued ones iff it is re-queued |
| Notifications.BatchTraceSnoc | examples/03-agent-docs-and-mermaid/src/notifications/NotificationService.ts:87-88 | one more payload appends its own calls and pauses |
| Notifications.Requeued | examples/03-agent-docs-and-mermaid/src/notifications/NotificationService.ts:78-79 | the queued payloads are exactly those with a provider and no delivery; with the delivered ones they number at most the input |
| Notifications.NotificationService.SendBatch | examples/03-agent-docs-and-mermaid/src/notifications/NotificationService.ts:83-97 | sends in input order; `sent` is the delivered count and `sent + failed` the number of payloads; failures are queued in order |
| Notifications.NotificationService.GetQueuedNotifications | examples/03-agent-docs-and-mermaid/src/notifications/NotificationService.ts:99-101 | a copy of the queue |
| Notifications.ReplayKeepsQueue | examples/03-agent-docs-and-mermaid/src/notifications/NotificationService.ts:64-79 | sending again, under the same providers, payloads that were all re-queued delivers none and re-queues them all in order |
| Notifications.QueueIdempotent | examples/03-agent-docs-and-mermaid/src/notifications/NotificationService.ts:103-116 | a second round over the re-queued payloads leaves the same queue and delivers nothing |
| Notifications.NotificationService.ProcessQueue | examples/03-agent-docs-and-mermaid/src/notifications/NotificationService.ts:103-116 | returns the delivered count (≤ old queue length); the new queue is exactly the old payloads that failed again, in order |
| Notifications.DefaultsDeliver | examples/03-agent-docs-and-mermaid/src/notifications/NotificationService.ts:43-81 | with the defaults and at least one attempt, everything but push is delivered, and push is dropped rather than queued |
| Processor.Gateway.ChargeResult | examples/03-agent-docs-and-mermaid/src/gateways/PaymentGateway.ts:1-14 | either provider's charge result: success iff no error, carrying the new id |
| Processor.Gateway.RefundResult | examples/03-agent-docs-and-mermaid/src/gateways/PaymentGateway.ts:1-14 | either provider's refund result: success iff no error |
| Processor.Gateway.Status | examples/03-agent-docs-and-mermaid/src/gateways/PaymentGateway.ts:1-14 | the provider's `getStatus` is `Ledger.Status` under its policy |
| Processor.Charge | examples/03-agent-docs-and-mermaid/src/core/PaymentProcessor.ts:53 | `gateway.charge` dispatched to the provider is `Ledger.Charge` under its policy |
| Processor.Refund | examples/03-agent-docs-and-mermaid/src/core/PaymentProcessor.ts:90 | `gateway.refund` dispatched to the provider is `Ledger.Refund` under its policy |
| Processor.InitiatedEvent | examples/03-agent-docs-and-mermaid/src/core/PaymentProcessor.ts:27-35 | PAYMENT_INITIATED, success, at `now`, actor the customer, resource the request |
| Processor.FraudRejectedEvent | examples/03-agent-docs-and-mermaid/src/core/PaymentProcessor.ts:40-48 | FRAUD_REJECTED, failure, at `now`, actor the customer, resource the request |
| Processor.ChargeEvent | examples/03-agent-docs-and-mermaid/src/core/PaymentProcessor.ts:56-64 | PAYMENT_SUCCESS/success iff the charge succeeded, else PAYMENT_FAILED/failure; actor the customer, resource the request |
| Processor.RefundInitiatedEvent | examples/03-agent-docs-and-mermaid/src/core/PaymentProcessor.ts:80-88 | REFUND_INITIATED, success, at `now`, actor "system", resource the transaction |
| Processor.EventDetails | examples/03-agent-docs-and-mermaid/src/core/PaymentProcessor.ts:27-88 | the opening events' details hold exactly the amount and currency, the fraud reasons, and the refund amount and reason |
| Processor.RefundCompletedEvent | examples/03-agent-docs-and-mermaid/src/core/PaymentProcessor.ts:92-99 | REFUND_SUCCESS/success iff the refund succeeded; actor "system"; no details |
| Processor.ConfirmationEmail | examples/03-agent-docs-and-mermaid/src/core/PaymentProcessor.ts:68-73 | an email to the customer's address |
| Processor.PaymentProcessor.constructor | examples/03-agent-docs-and-mermaid/src/core/PaymentProcessor.ts:13-23 | keeps its four collaborators |
| Processor.PaymentProcessor.Screen | examples/03-agent-docs-and-mermaid/src/core/PaymentProcessor.ts:26-38 | logs PAYMENT_INITIATED, then returns the detector's verdict on its prior state and records the attempt; the gateway is untouched |
| Processor.PaymentProcessor.Decline | examples/03-agent-docs-and-mermaid/src/core/PaymentProcessor.ts:39-50 | logs FRAUD_REJECTED with the reasons and returns the fraud error; the gateway is untouched |
| Processor.PaymentProcessor.ChargeAndConfirm | examples/03-agent-docs-and-mermaid/src/core/PaymentProcessor.ts:52-76 | returns the gateway's charge result unchanged, logs its outcome, and sends the confirmation iff it succeeded |
| Processor.PaymentProcessor.ProcessPayment | examples/03-agent-docs-and-mermaid/src/core/PaymentProcessor.ts:25-77 | exactly two audit events, PAYMENT_INITIATED first; a fraud rejection returns the fraud error, leaves the ledger, queue and trace unchanged and logs the reasons; otherwise the gateway result is returned unchanged, its outcome logged, and an email sent iff it succeeded; the detector records the attempt on every path |
| Processor.PaymentProcessor.RefundPayment | examples/03-agent-docs-and-mermaid/src/core/PaymentProcessor.ts:79-102 | logs REFUND_INITIATED, refunds through the gateway, logs the outcome, and returns the gateway's result unchanged |
| Processor.PaymentProcessor.GetTransactionStatus | examples/03-agent-docs-and-mermaid/src/core/PaymentProcessor.ts:104-106 | the gateway's status; an unknown id gives the not-found status |
| Processor.NewStripeProcessor | examples/03-agent-docs-and-mermaid/src/core/PaymentProcessor.ts:13-23 | a processor over fresh default collaborators and an empty Stripe ledger |
| Processor.ValidPaymentScenario | examples/03-agent-docs-and-mermaid/src/core/PaymentProcessor.ts:25-77 | amount 100 at risk 0.1 succeeds with a `stripe_` transaction id |
| Processor.ZeroAmountScenario | examples/03-agent-docs-and-mermaid/src/core/PaymentProcessor.ts:38-53 | amount 0 passes the fraud check and fails with "Invalid amount" at the gateway |
| Processor.HighRiskScenario | examples/03-agent-docs-and-mermaid/src/core/PaymentProcessor.ts:38-50 | risk 0.9 fails with an error containing "fraud" |
| Processor.PaidProcessor | examples/03-agent-docs-and-mermaid/src/core/PaymentProcessor.ts:25-77 | after one payment of 100 the ledger holds exactly that completed charge |
| Processor.RefundScenario | examples/03-agent-docs-and-mermaid/src/core/PaymentProcessor.ts:79-102 | refunding 50 of that charge succeeds with id `refund_stripe_…` |
| Processor.UnknownRefundScenario | examples/03-agent-docs-and-mermaid/src/core/PaymentProcessor.ts:79-102 | refunding an unknown id fails with an error containing "not found" |
| Users.ValidateUserName | examples/01-tabs-refactor/src/userService.ts:33-47 | accepted iff 2 ≤ length in UTF-16 code units ≤ 100 and every character is a letter, whitespace, `'` or `-`; errors checked in order: required, too short, too long, invalid characters |
| Users.NoSpaceConcat | examples/01-tabs-refactor/src/userService.ts:59 | a concatenation has no whitespace iff neither part has |
| Users.ShapeIsPattern | examples/01-tabs-refactor/src/userService.ts:59 | an address that passes the scan splits into the pattern's three atoms |
| Users.PartsAreShape | examples/01-tabs-refactor/src/userService.ts:59 | three atoms joined by `@` and `.` pass the scan |
| Users.EmailShapeIsPattern | examples/01-tabs-refactor/src/userService.ts:59 | the scanning decision agrees with `^[^\s@]+@[^\s@]+\.[^\s@]+$` on every string |
| Users.ValidateUserEmail | examples/01-tabs-refactor/src/userService.ts:49-63 | accepted iff 5 ≤ length in UTF-16 code units ≤ 255 and the pattern matches; errors in order: required, too short, too long, format |
| Users.ValidateUserRole | examples/01-tabs-refactor/src/userService.ts:65-73 | accepted iff admin, editor or viewer; empty gives "Role is required" |
| Users.FirstError | examples/01-tabs-refactor/src/userService.ts:78-91 | no error iff all three validators accept; a name error comes first |
| Users.NameExamples | examples/01-tabs-refactor/src/userService.ts:33-47 | "Mary O'Brien" accepted, "A" too short, "Alice123" invalid |
| Users.AtomsAccepted | examples/01-tabs-refactor/src/userService.ts:49-63 | any `local@domain.tld` of atoms within 255 UTF-16 code units is accepted |
| Users.AstralName | examples/01-tabs-refactor/src/userService.ts:33-47 | a lone emoji is two code units long, so it is not too short but has invalid characters |
| Users.AstralEmailTooLong | examples/01-tabs-refactor/src/userService.ts:49-63 | 127 emoji before `@a.b` make 258 code units and are too long, though only 131 characters |
| Users.EmailAcceptedExamples | examples/01-tabs-refactor/src/userService.ts:49-63 | `test@example.com`, `one@example.com` and `two@example.com` are accepted |
| Users.NoDotNoShape | examples/01-tabs-refactor/src/userService.ts:59 | an address with no dot after its `@` fails the pattern |
| Users.MissingDomainExample | examples/01-tabs-refactor/src/userService.ts:59-61 | "missing@domain" is an invalid format |
| Users.NoAtExample | examples/01-tabs-refactor/src/userService.ts:59-71 | "notanemail" is an invalid format; "superuser" is not a role |
| Users.ApplyUpdate | examples/01-tabs-refactor/src/userService.ts:140-166 | name, email, role validated and written in turn; the first rejection returns its error and keeps the fields already written; `updatedAt` moves to `now` iff all passed; id and `createdAt` never change |
| Users.NoRollback | examples/01-tabs-refactor/src/userService.ts:140-154 | a valid new name followed by a bad email fails, yet the stored user has the new name |
| Users.UpdateStore | examples/01-tabs-refactor/src/userService.ts:129-170 | empty id → "User ID is required", unknown → "User not found", both with the store unchanged; otherwise only that user changes, as `ApplyUpdate` says |
| Users.Remove | examples/01-tabs-refactor/src/userService.ts:183 | removing an id from the insertion order keeps exactly the other ids, in order and distinct |
| Users.DistinctCard | examples/01-tabs-refactor/src/userService.ts:192 | a duplicate-free listing of the stored ids is as long as the store is large |
| Users.UserStore.constructor | examples/01-tabs-refactor/src/userService.ts:30 | an empty store |
| Users.UserStore.CreateUser | examples/01-tabs-refactor/src/userService.ts:76-110 | the first validation error leaves the store unchanged; otherwise exactly one user `user_<stamp>` with the input's fields and `createdAt == updatedAt == now` is stored and is then found by id |
| Users.UserStore.GetUserById | examples/01-tabs-refactor/src/userService.ts:112-127 | found iff the id is non-empty and stored; otherwise "User ID is required" or "User not found" |
| Users.UserStore.UpdateUser | examples/01-tabs-refactor/src/userService.ts:129-170 | the reply and new store are exactly `UpdateStore`; the insertion order is unchanged |
| Users.UserStore.DeleteUser | examples/01-tabs-refactor/src/userService.ts:172-188 | the id errors leave the store unchanged; otherwise exactly that id is removed, after which it is not found |
| Users.UserStore.ListUsers | examples/01-tabs-refactor/src/userService.ts:190-196 | every stored user once, in insertion order; count = store size |
| Users.UserStore.ClearUsers | examples/01-tabs-refactor/src/userService.ts:241-243 | the store and its listing become empty |
| Users.ListUsersScenario | examples/01-tabs-refactor/src/userService.ts:76-110 | two valid users created under distinct stamps are listed as two |
| Users.CreatedExamplesValid | examples/01-tabs-refactor/src/userService.ts:78-91 | the two example inputs pass all validators |
| Users.FormatUserForDisplay | examples/01-tabs-refactor/src/userService.ts:199-211 | the display text contains the name, email and role lines |
| Users.DisplayLinesBack | examples/01-tabs-refactor/src/userService.ts:199-211 | with single-line fields the text splits back into its 9 lines, first and last 40 `=`, the name on the second |
| Users.FormatUserForLog | examples/01-tabs-refactor/src/userService.ts:213-225 | the log text contains `[USER LOG]`, the name and the email lines |
| Users.LogLinesBack | examples/01-tabs-refactor/src/userService.ts:213-225 | with single-line fields the text splits back into its 9 lines, the first `[USER LOG]` |
| Users.FormatUserForExport | examples/01-tabs-refactor/src/userService.ts:227-238 | the export text contains its opening marker and the quoted name |
| Users.ExportLinesBack | examples/01-tabs-refactor/src/userService.ts:227-238 | with single-line fields the text splits back into its 8 lines, framed by the two export markers |
| Tasks.AddTask | examples/02-debug-and-browser-agent/src/App.tsx:27-35 | one new incomplete task with the given title and priority at the end; earlier tasks unchanged |
| Tasks.FindIndex | examples/02-debug-and-browser-agent/src/App.tsx:39 | −1 iff no task has the id, else the first position with it |
| Tasks.FilterOut | examples/02-debug-and-browser-agent/src/App.tsx:43 | the list without the element at the given position, unchanged when there is none |
| Tasks.DeleteTask | examples/02-debug-and-browser-agent/src/App.tsx:38-48 | a non-empty list loses exactly one task: the one after the selected one, the selected one if it is last, or the first if the id is absent; an empty list is unchanged |
| Tasks.DeleteById | examples/02-debug-and-browser-agent/src/App.tsx:40 | the intended deletion: exactly the entries without the id remain |
| Tasks.DeleteHitsNeighbour | examples/02-debug-and-browser-agent/src/App.tsx:40-43 | deleting a task that is not last keeps it, removes its neighbour, and differs from the intended deletion |
| Tasks.DeleteLastAsIntended | examples/02-debug-and-browser-agent/src/App.tsx:45-47 | deleting the last task agrees with the intended deletion |
| Tasks.ToggleTask | examples/02-debug-and-browser-agent/src/App.tsx:50-54 | same length and order; tasks with the id have `completed` flipped and nothing else changed; all others identical |
| Tasks.ToggleTwice | examples/02-debug-and-browser-agent/src/App.tsx:50-54 | toggling the same id twice restores the list |
| Tasks.ToggleKeepsSelection | examples/02-debug-and-browser-agent/src/App.tsx:39-54 | toggling never changes which position a later delete selects |
| Text.Trim | cursor-config/skills/scripts/run_tests_and_summarize.js:61 | `trim()`: an infix with only whitespace cut off, not starting or ending with whitespace; empty iff all whitespace |
| Text.Split | cursor-config/mcp/mcp-server/index.js:318 | `split('\n')`: at least one piece, none containing the separator |
| Text.JoinSplit | cursor-config/mcp/mcp-server/index.js:318 | joining the pieces of a split gives the string back |
| Text.SplitJoin | examples/01-tabs-refactor/src/userService.ts:210 | splitting a join of separator-free pieces gives the pieces back |
| Text.ToLower | cursor-config/mcp/mcp-server/index.js:358 | `toLowerCase()` character by character, length kept |
| TestSummary.Capture | cursor-config/skills/scripts/run_tests_and_summarize.js:59 | the lazy `(.+?)` ends at the first admissible position, covering no line terminator |
| TestSummary.CaptureFinds | cursor-config/skills/scripts/run_tests_and_summarize.js:59 | the capture search reaches the first admissible end |
| TestSummary.NoParenNoTiming | cursor-config/skills/scripts/run_tests_and_summarize.js:59 | spaces followed by a character other than `(` never open the timing group |
| TestSummary.DigitsComplete | cursor-config/skills/scripts/run_tests_and_summarize.js:59 | digits then ` ms)` complete the timing group |
| TestSummary.NoStopInName | cursor-config/skills/scripts/run_tests_and_summarize.js:59 | no timing suffix begins inside a name that has no `(` and ends in a non-space character, so the capture cannot stop there |
| TestSummary.NameCaptured | cursor-config/skills/scripts/run_tests_and_summarize.js:59-64 | `<mark> name` with no suffix or a timing suffix captures exactly the name |
| TestSummary.MarkedLineName | cursor-config/skills/scripts/run_tests_and_summarize.js:59-64 | Jest's `✓ name` and `✓ name (N ms)` both yield exactly the name |
| TestSummary.TimingOf | cursor-config/skills/scripts/run_tests_and_summarize.js:59 | ` (N ms)` is a timing suffix |
| TestSummary.ReadLine | cursor-config/skills/scripts/run_tests_and_summarize.js:58-75 | the `if`/`else if` chain is the `Branch` step on the parser state |
| TestSummary.EndFailure | cursor-config/skills/scripts/run_tests_and_summarize.js:78-83 | a blank or `●` line records the pending failure if it has an error, and clears it |
| TestSummary.ParseTestOutput | cursor-config/skills/scripts/run_tests_and_summarize.js:50-92 | the loop over the split lines, then the final flush, is `Finish(Run(lines))` |
| TestSummary.StepPasses | cursor-config/skills/scripts/run_tests_and_summarize.js:58-62 | each line adds its captured pass name, and nothing else, to the passes |
| TestSummary.PassesAreCollected | cursor-config/skills/scripts/run_tests_and_summarize.js:56-62 | the passes are the trimmed captures of the pass lines, in order, whatever failures are pending |
| TestSummary.StepKeepsErrors | cursor-config/skills/scripts/run_tests_and_summarize.js:63-83 | a step records only failures that have an error and starts at most one failure per `✕` line |
| TestSummary.RunInvariant | cursor-config/skills/scripts/run_tests_and_summarize.js:56-84 | every recorded failure has an error, and failures never outnumber matching `✕` lines |
| TestSummary.ParseResult | cursor-config/skills/scripts/run_tests_and_summarize.js:50-92 | passes as collected; each failure has an error; no more failures than `✕` lines |
| TestSummary.BlankLineFlushes | cursor-config/skills/scripts/run_tests_and_summarize.js:78-83 | a blank line records the pending failure iff it has an error, and drops it |
| TestSummary.StackLineGoesToTrace | cursor-config/skills/scripts/run_tests_and_summarize.js:72-75 | an `at ` line goes to the stack trace, never to the error |
| TestSummary.FailLineReplaces | cursor-config/skills/scripts/run_tests_and_summarize.js:63-67 | a new `✕` line replaces the pending failure without recording it |
| TestSummary.TwoKeywords | cursor-config/skills/scripts/run_tests_and_summarize.js:97-110 | a two-keyword rule needs both (all) or either (any) |
| TestSummary.FirstRule | cursor-config/skills/scripts/run_tests_and_summarize.js:97-113 | the first matching rule: it matches and no earlier one does; none iff no rule matches |
| TestSummary.SuggestFix | cursor-config/skills/scripts/run_tests_and_summarize.js:94-114 | `suggestFix`'s chain gives the advice of the first matching rule of the table on the lower-cased error |
| TestSummary.RulesMatch | cursor-config/skills/scripts/run_tests_and_summarize.js:97-110 | each table rule asks exactly the chain's keyword test |
| TestSummary.FiveRules | cursor-config/skills/scripts/run_tests_and_summarize.js:97-113 | with five rules the first that matches decides, else the default |
| TestSummary.AssertionFirst | cursor-config/skills/scripts/run_tests_and_summarize.js:97-99 | an error with both "expected" and "received" gets the assertion advice whatever else it says |
| TestSummary.StatusText | cursor-config/skills/scripts/run_tests_and_summarize.js:121 | PASSED iff the exit code is 0 |
| TestSummary.FormatSummary | cursor-config/skills/scripts/run_tests_and_summarize.js:116-154 | the built string is the report `Summary` |
| TestSummary.AppendFailures | cursor-config/skills/scripts/run_tests_and_summarize.js:126-137 | appends the failures section: heading and entries numbered from 1, only when there are failures |
| TestSummary.AppendPassed | cursor-config/skills/scripts/run_tests_and_summarize.js:139-151 | appends every pass (1 to 20), or the count, the first 10 and how many more, or nothing |
| TestSummary.AppendPasses | cursor-config/skills/scripts/run_tests_and_summarize.js:141-143 | one bullet per pass, in order |
| TestSummary.SummaryStatus | cursor-config/skills/scripts/run_tests_and_summarize.js:120-121 | the report starts with the PASSED status iff the exit code is 0, whatever was parsed |
| TestSummary.OpeningsDiffer | cursor-config/skills/scripts/run_tests_and_summarize.js:121 | the FAILED and PASSED openings have the same length and differ |
| TestSummary.HeaderOpens | cursor-config/skills/scripts/run_tests_and_summarize.js:120-121 | the header begins with the title and status line |
| TestSummary.HeaderCounts | cursor-config/skills/scripts/run_tests_and_summarize.js:118-124 | the header states total = passes + failures, the passes and the failures |
| TestSummary.SummaryCounts | cursor-config/skills/scripts/run_tests_and_summarize.js:118-124 | the report states total = passes + failures, the passes and the failures |
| TestSummary.SummaryListsFailures | cursor-config/skills/scripts/run_tests_and_summarize.js:129-136 | failure k has its entry numbered k + 1 in the report |
| TestSummary.EntriesContain | cursor-config/skills/scripts/run_tests_and_summarize.js:129-136 | the entries hold every failure's numbered entry |
| TestSummary.SummaryListsPasses | cursor-config/skills/scripts/run_tests_and_summarize.js:139-149 | each pass is listed when there are at most 20; of more, the first 10 are |
| TestSummary.SummaryCountsUnlisted | cursor-config/skills/scripts/run_tests_and_summarize.js:144-150 | of more than 20 passes, the report says how many (n − 10) it left out |
| TestSummary.PassesInSection | cursor-config/skills/scripts/run_tests_and_summarize.js:139-151 | the passes part lists what it shows and, past 20, the remainder count |
| TestSummary.ItemsContain | cursor-config/skills/scripts/run_tests_and_summarize.js:141-143 | the bullet list holds each pass's bullet |
| McpTools.ExerciseHints | cursor-config/mcp/mcp-server/index.js:236-261 | an entry exists iff the exercise is 1, 2 or 3, each with three hints |
| McpTools.ClampLevel | cursor-config/mcp/mcp-server/index.js:380 | `min(max(1, level), 3)` with a missing level meaning 1: always in 1..3 and the identity inside it |
| McpTools.GetExerciseHint | cursor-config/mcp/mcp-server/index.js:370-388 | unknown iff the exercise is not 1–3, listing [1, 2, 3]; otherwise the title, the clamped level, `hints[level-1]` and more-hints iff level < 3 |
| McpTools.HintsInOrder | cursor-config/mcp/mcp-server/index.js:380-387 | levels 1, 2, 3 give the three hints in order, with more available before the last |
| McpTools.KindOf | cursor-config/mcp/mcp-server/index.js:116-233 | a key names an entry iff it is one of the four types, and that entry is stored under it |
| McpTools.LookupComponentGuidelines | cursor-config/mcp/mcp-server/index.js:357-368 | found iff the lower-cased type is one of the four keys, returning that entry; otherwise an error naming the type and listing all four |
| McpTools.ToLowerIdempotent | cursor-config/mcp/mcp-server/index.js:358 | lower-casing twice is lower-casing once |
| McpTools.LookupIgnoresCase | cursor-config/mcp/mcp-server/index.js:357-368 | a type and its lower-cased spelling get the same answer |
| McpTools.ReadTrainingSection | cursor-config/mcp/mcp-server/index.js:307-355 | a missing document is an error; otherwise the reply of the scan over the document's lines |
| McpTools.StoppedScan | cursor-config/mcp/mcp-server/index.js:336-338 | after the loop breaks, later lines change nothing |
| McpTools.ScanConsistent | cursor-config/mcp/mcp-server/index.js:323-341 | the scan stops only inside a section; lines are collected iff a section was entered; the first collected line is the title, a matching heading; no later collected line matches or closes the section |
| McpTools.ScanFinds | cursor-config/mcp/mcp-server/index.js:327-331 | a section is entered iff some line is a matching heading |
| McpTools.ScanSlice | cursor-config/mcp/mcp-server/index.js:323-341 | the collected lines are a contiguous slice of the document that ends at the closing heading that stopped the scan, or at the end of the document |
| McpTools.ScanCollects | cursor-config/mcp/mcp-server/index.js:327-343 | something is collected iff some line is a matching heading |
| McpTools.ScanRun | cursor-config/mcp/mcp-server/index.js:323-341 | the collected lines are the run opened by a matching heading and ended before the first closing heading or the end |
| McpTools.SectionMissingIffNoMatch | cursor-config/mcp/mcp-server/index.js:343-348 | not found iff no line is a matching heading |
| McpTools.SectionIsRun | cursor-config/mcp/mcp-server/index.js:350-354 | a found section's content splits back into the collected run, and `lineCount` is its number of lines |
| McpTools.RunRejoins | cursor-config/mcp/mcp-server/index.js:352 | joining a run of document lines and splitting again gives the run back |
| McpTools.JoinPath | cursor-config/mcp/mcp-server/index.js:278 | the relative path ends with the entry's name |
| McpTools.AdmittedPath | cursor-config/mcp/mcp-server/index.js:289-290 | a listed file's path ends with the pattern |
| McpTools.WalkListable | cursor-config/mcp/mcp-server/index.js:273-294 | every walked entry is listable: directory entries end in `/`, and with a pattern every file entry ends with it |
| McpTools.WalkOneListable | cursor-config/mcp/mcp-server/index.js:276-292 | every entry walked from one node is listable in the same sense |
| McpTools.WalkDir | cursor-config/mcp/mcp-server/index.js:273-294 | the loop appends exactly `Walk` of the entries, in order |
| McpTools.WalkEntry | cursor-config/mcp/mcp-server/index.js:276-292 | one turn: skipped names add nothing; a directory adds `name/` then its walk; a file is added iff the pattern admits it |
| McpTools.WalkStep | cursor-config/mcp/mcp-server/index.js:276-293 | the walk over one more node extends the walk over the ones before |
| McpTools.CountsCoverAll | cursor-config/mcp/mcp-server/index.js:300-301 | files plus directories = all entries |
| McpTools.Shape | cursor-config/mcp/mcp-server/index.js:298-304 | counts over all entries; at most 50 returned, a prefix; truncated iff some were left out |
| McpTools.ListRepoFiles | cursor-config/mcp/mcp-server/index.js:264-305 | a missing directory is an error naming it; otherwise the shaped walk, every returned entry listable |

## Left out

- Console output (`console.log`/`console.error`), the development-only audit echo, and the simulated providers' logging.
- `async`/`await`: every call is sequential.
- The `setTimeout` delay: a pause is a ghost `Pause(ms)` event and no time passes.
- Wall-clock time and randomness:
  - `Date.now()`, `Math.random()` and `new Date()` are replaced by the `now` and `stamp` parameters;
  - whether two stamps collide is the caller's concern.
- `process.env.NODE_ENV`: a per-call `nodeEnv` parameter.
- `toISOString` and number-to-string: the opaque `iso` and `numberText` parameters.
- IEEE-754 arithmetic: scores and amounts are exact reals, so nothing is claimed about rounding at boundaries such as 0.5 + 0.2 against 0.7.
- The `AuditStorage` interface: only its in-memory implementation exists.
- Notification providers other than functions of payload and attempt number; a provider whose behaviour depends on hidden state is not modelled.
- The `try`/`catch` branches of the user service: nothing in them can throw in the model.
- Object identity in the user service: a `User` is a value, so aliasing between a returned user and the stored one is not captured. Neither is the mutation of the stored object before a failed update returns; the stored value is updated instead.
- `toLowerCase` is ASCII-only. Unicode case mapping is not modelled.
- Strings are sequences of Unicode scalar values, not of UTF-16 code units. Lengths are counted in code units (`Text.Utf16Length`). The character tests are made per character. That gives the code's outcome: a surrogate half fails `[a-zA-Z\s'-]` and passes `[^\s@]`, just as the whole character does. A JavaScript string holding a lone surrogate has no counterpart in the model.
- The `\s` class is the ECMAScript whitespace and line-terminator set.
- Property lookups that reach JavaScript's prototype chain (`COMPONENT_GUIDELINES['constructor']`, `EXERCISE_HINTS['toString']`) are not modelled. Neither are exercise numbers that are not integers.
- McpTools.ClampLevel: hint levels are integers. A fractional `hintLevel` such as 2.5 passes the clamp unchanged, selects no hint (`undefined`) and reports more hints available; that is not modelled.
- Notifications: `retryAttempts` is an integer. A fractional count such as 2.5 makes attempts 1 and 2 and still pauses after the last one; that is not modelled.
- Notifications.NotificationService.ProcessQueue: a provider is a function of payload and attempt number. So under an unchanged provider table a re-queued payload fails again, and `processQueue` delivers something only after `registerProvider` changes a channel's provider (`QueueIdempotent`).
- Audit.Select: a filter has only the `eventType`, `actor`, `resource`, `action` and `outcome` keys, compared by value. A filter on `timestamp` or `details`, which `!==` compares by object identity, and a key given explicitly as `undefined` are not modelled.
- The MCP server's stdio transport, tool registry and request dispatch.
- The filesystem in the MCP tools:
  - `fs.existsSync`, `readFileSync` and `readdirSync` become parameters;
  - `path.join` is simplified to joining a relative path and a plain name with `/`.
- `runTests` and `main` of the test-summary script: the process spawn, reading its output, and the exit.
- The React rendering, components and accessibility markup of the to-do list app.
- The other helper scripts in `cursor-config/skills/scripts` (`generate_docs.js`, `analyze_dependencies.js`, `a11y-check.js`). They are filesystem and regular-expression plumbing and are not part of this model.
- Ledger.Status: returns the not-found status also for a stored entry whose status is the empty string, as `status || 'not_found'` does. Its contract states the stored status only for well-formed ledgers, where that case cannot arise.
- Notifications.Run: its own contract states only the exhausted case; what the loop delivers, calls and pauses is stated by the lemmas `RunDelivers`, `RunCallCount`, `RunCallsInRange`, `RunStopsAtSuccess`, `RunPausesOnlyAfterThrow` and `RunPausesAfterEveryThrow`.
