/** The fraud heuristic: a customer's baseline risk plus fixed penalties for three
    failing checks (velocity, amount anomaly, geography), and a per-customer
    history of recent transaction times that every check appends to. Times are
    milliseconds supplied by the caller; scores are exact reals. */
module Fraud {
  import opened Optional
  import opened PaymentTypes
  import Text

  const DefaultVelocityWindow: real := 3600.0
  const DefaultMaxTransactionsPerWindow: real := 10.0
  const DefaultHighRiskThreshold: real := 0.7

  const VelocityPenalty: real := 0.2
  const AmountPenalty: real := 0.15
  const GeographicPenalty: real := 0.25

  const VelocityReason := "Too many transactions in short time period"
  const LargeAmountReason := "Unusually large transaction amount"
  const RoundAmountReason := "Suspicious round amount"
  const GeographicReason := "Transaction from high-risk region"

  const HighRiskCountries: seq<string> := ["XX", "YY", "ZZ"]

  /** `option || default` on a number: an option that is missing or zero falls
      back to the default. */
  function OrDefault(option: Option<real>, default: real): (r: real)
    ensures option.Some? && option.value != 0.0 ==> r == option.value
    ensures option.None? || option.value == 0.0 ==> r == default
  {
    if option.Some? && option.value != 0.0 then option.value else default
  }

  /** The outcome of one check; a failing check carries its reason. */
  datatype Check = Check(passed: bool, reason: string)

  /** `amount % 1000 === 0`: the amount is a whole multiple of 1000. */
  predicate IsWholeThousands(amount: real) {
    amount == amount.Floor as real && amount.Floor % 1000 == 0
  }

  /** `checkAmountAnomaly`: more than 5000 is unusually large; otherwise a round
      multiple of 1000 above 1000 is suspicious; at most one reason is given. */
  function CheckAmountAnomaly(amount: real): (c: Check)
    ensures !c.passed <==> amount > 5000.0 || (IsWholeThousands(amount) && amount > 1000.0)
    ensures amount > 5000.0 ==> c.reason == LargeAmountReason
    ensures amount <= 5000.0 && !c.passed ==> c.reason == RoundAmountReason
    ensures c.passed ==> c.reason == ""
  {
    if amount > 5000.0 then Check(false, LargeAmountReason)
    else if IsWholeThousands(amount) && amount > 1000.0 then Check(false, RoundAmountReason)
    else Check(true, "")
  }

  /** `checkGeographic`: only a present, non-empty `metadata.country` that is one
      of the high-risk placeholders fails. */
  function CheckGeographic(metadata: Option<map<string, string>>): (c: Check)
    ensures !c.passed <==> (metadata.Some? && "country" in metadata.value
                            && metadata.value["country"] in {"XX", "YY", "ZZ"})
    ensures !c.passed ==> c.reason == GeographicReason
    ensures c.passed ==> c.reason == ""
  {
    if metadata.None? || "country" !in metadata.value || metadata.value["country"] == "" then
      Check(true, "")
    else if metadata.value["country"] in HighRiskCountries then
      Check(false, GeographicReason)
    else
      Check(true, "")
  }

  /** How many of the times `ts` lie strictly after `start`. */
  function CountAfter(ts: seq<int>, start: real): (n: nat)
    ensures n <= |ts|
  {
    if ts == [] then 0
    else (if ts[|ts| - 1] as real > start then 1 else 0) + CountAfter(ts[..|ts| - 1], start)
  }

  /** `ts.filter(t => t > start)`: the times after `start`, in their order. */
  function KeepAfter(ts: seq<int>, start: real): (r: seq<int>)
    ensures |r| == CountAfter(ts, start)
    ensures forall i :: 0 <= i < |r| ==> r[i] as real > start
    ensures forall t :: t in r <==> t in ts && t as real > start
  {
    if ts == [] then []
    else
      var last := ts[|ts| - 1];
      var init := ts[..|ts| - 1];
      assert ts == init + [last];
      KeepAfter(init, start) + (if last as real > start then [last] else [])
  }

  /** Pruning keeps everything when every time is already after `start`. */
  lemma {:induction false} KeepAfterAll(ts: seq<int>, start: real)
    requires forall i :: 0 <= i < |ts| ==> ts[i] as real > start
    ensures KeepAfter(ts, start) == ts
  {
    if ts != [] {
      KeepAfterAll(ts[..|ts| - 1], start);
      assert ts == ts[..|ts| - 1] + [ts[|ts| - 1]];
    }
  }

  /** The unclamped score: the baseline plus 0.2, 0.15 and 0.25 for a failing
      velocity, amount and geographic check respectively. */
  function UnclampedScore(base: real, velocity: Check, amount: Check, geographic: Check): real {
    base
    + (if velocity.passed then 0.0 else VelocityPenalty)
    + (if amount.passed then 0.0 else AmountPenalty)
    + (if geographic.passed then 0.0 else GeographicPenalty)
  }

  /** The reasons of the failing checks, in the order velocity, amount, geography. */
  function Reasons(velocity: Check, amount: Check, geographic: Check): (r: seq<string>)
    ensures |r| == (if velocity.passed then 0 else 1) + (if amount.passed then 0 else 1)
                   + (if geographic.passed then 0 else 1)
  {
    (if velocity.passed then [] else [velocity.reason])
    + (if amount.passed then [] else [amount.reason])
    + (if geographic.passed then [] else [geographic.reason])
  }

  /** The verdict for the three checks: approved iff the unclamped score is below
      the threshold, flagged for review iff it is also at least 0.5, and the
      reported score capped at 1. */
  function Assess(threshold: real, base: real, velocity: Check, amount: Check, geographic: Check)
    : (r: FraudCheckResult)
    ensures var score := UnclampedScore(base, velocity, amount, geographic);
      && (r.approved <==> score < threshold)
      && (r.requiresReview <==> 0.5 <= score < threshold)
      && r.riskScore <= 1.0
      && (r.riskScore == score || (r.riskScore == 1.0 && score > 1.0))
    ensures r.requiresReview ==> r.approved
    ensures r.reasons == Reasons(velocity, amount, geographic)
  {
    var score := UnclampedScore(base, velocity, amount, geographic);
    FraudCheckResult(
      score < threshold,
      if score < 1.0 then score else 1.0,
      Reasons(velocity, amount, geographic),
      score >= 0.5 && score < threshold)
  }

  class FraudDetector {
    const velocityWindow: real
    const maxTransactionsPerWindow: real
    const highRiskThreshold: real
    var recentTransactions: map<string, seq<int>>

    /** The three options each fall back to their default when missing or zero. */
    constructor (velocityWindow: Option<real>, maxTransactionsPerWindow: Option<real>, highRiskThreshold: Option<real>)
      ensures this.velocityWindow == OrDefault(velocityWindow, DefaultVelocityWindow)
      ensures this.maxTransactionsPerWindow == OrDefault(maxTransactionsPerWindow, DefaultMaxTransactionsPerWindow)
      ensures this.highRiskThreshold == OrDefault(highRiskThreshold, DefaultHighRiskThreshold)
      ensures recentTransactions == map[]
    {
      this.velocityWindow := OrDefault(velocityWindow, DefaultVelocityWindow);
      this.maxTransactionsPerWindow := OrDefault(maxTransactionsPerWindow, DefaultMaxTransactionsPerWindow);
      this.highRiskThreshold := OrDefault(highRiskThreshold, DefaultHighRiskThreshold);
      recentTransactions := map[];
    }

    /** The recorded times of a customer; none when the customer is unknown. */
    function History(customerId: string): seq<int>
      reads this
    {
      if customerId in recentTransactions then recentTransactions[customerId] else []
    }

    /** The start of the window that ends at `now`; only later times count. */
    function WindowStart(now: int): real {
      now as real - velocityWindow * 1000.0
    }

    /** `checkVelocity`: fails iff at least the maximum number of the customer's
        recorded times lie inside the window ending at `now`. */
    function CheckVelocity(customerId: string, now: int): (c: Check)
      reads this
      ensures !c.passed <==> CountAfter(History(customerId), WindowStart(now)) as real >= maxTransactionsPerWindow
      ensures !c.passed ==> c.reason == VelocityReason
    {
      var recentCount := CountAfter(History(customerId), WindowStart(now));
      if recentCount as real >= maxTransactionsPerWindow then Check(false, VelocityReason)
      else Check(true, "")
    }

    /** `recordTransaction`: appends `now` to the customer's history and keeps only
        the times inside the window; other customers are untouched. */
    method RecordTransaction(customerId: string, now: int)
      modifies this
      ensures recentTransactions
        == old(recentTransactions)[customerId := KeepAfter(old(History(customerId)) + [now], WindowStart(now))]
    {
      var transactions := History(customerId);
      transactions := transactions + [now];
      var filtered := KeepAfter(transactions, WindowStart(now));
      recentTransactions := recentTransactions[customerId := filtered];
    }

    /** `checkTransaction`: runs the three checks against the history as it was
        before this call, accumulating score and reasons, then records the call
        whatever the verdict. */
    method CheckTransaction(request: PaymentRequest, customer: Customer, now: int) returns (result: FraudCheckResult)
      modifies this
      ensures result == Assess(highRiskThreshold, customer.riskScore, old(CheckVelocity(customer.id, now)),
                               CheckAmountAnomaly(request.amount), CheckGeographic(request.metadata))
      ensures recentTransactions
        == old(recentTransactions)[customer.id := KeepAfter(old(History(customer.id)) + [now], WindowStart(now))]
    {
      var reasons: seq<string> := [];
      var riskScore := customer.riskScore;

      var velocityCheck := CheckVelocity(customer.id, now);
      if !velocityCheck.passed {
        reasons := reasons + [velocityCheck.reason];
        riskScore := riskScore + 0.2;
      }

      var amountCheck := CheckAmountAnomaly(request.amount);
      if !amountCheck.passed {
        reasons := reasons + [amountCheck.reason];
        riskScore := riskScore + 0.15;
      }

      var geoCheck := CheckGeographic(request.metadata);
      if !geoCheck.passed {
        reasons := reasons + [geoCheck.reason];
        riskScore := riskScore + 0.25;
      }

      RecordTransaction(customer.id, now);

      var approved := riskScore < highRiskThreshold;
      var requiresReview := riskScore >= 0.5 && riskScore < highRiskThreshold;
      result := FraudCheckResult(approved, if riskScore < 1.0 then riskScore else 1.0, reasons, requiresReview);
    }

    /** `getRiskScore`: 0.05 per recorded time, capped at 0.5. */
    function GetRiskScore(customerId: string): (r: real)
      reads this
      ensures 0.0 <= r <= 0.5
      ensures |History(customerId)| >= 10 ==> r == 0.5
      ensures |History(customerId)| < 10 ==> r == 0.05 * |History(customerId)| as real
    {
      var n := |History(customerId)| as real;
      if n * 0.05 < 0.5 then n * 0.05 else 0.5
    }
  }

  /** One check by a customer whose recorded times `h` all lie inside the window:
      the velocity check sees exactly `|h|` recent times and the call is appended. */
  method CheckInsideWindow(detector: FraudDetector, request: PaymentRequest, customer: Customer, now: int,
                           ghost h: seq<int>)
    returns (result: FraudCheckResult)
    requires detector.History(customer.id) == h
    requires forall i :: 0 <= i < |h| ==> h[i] as real > detector.WindowStart(now)
    requires detector.WindowStart(now) < now as real
    modifies detector
    ensures detector.History(customer.id) == h + [now]
    ensures result == Assess(detector.highRiskThreshold, customer.riskScore,
      (if |h| as real >= detector.maxTransactionsPerWindow then Check(false, VelocityReason) else Check(true, "")),
      CheckAmountAnomaly(request.amount), CheckGeographic(request.metadata))
  {
    KeepAfterAll(h, detector.WindowStart(now));
    KeepAfterAll(h + [now], detector.WindowStart(now));
    result := detector.CheckTransaction(request, customer, now);
  }

  /** With a 60-second window and a maximum of 3, a customer with baseline 0.1
      who makes four checks and then a fifth, all inside one minute, is scored
      above the baseline on the fifth for its velocity alone. */
  method VelocityScenario(times: seq<int>) returns (final: FraudCheckResult)
    requires |times| == 5
    requires forall i, j :: 0 <= i <= j < |times| ==> times[i] <= times[j]
    requires times[4] < times[0] + 60000
    ensures final.riskScore > 0.1
    ensures final.reasons == [VelocityReason]
  {
    var detector := new FraudDetector(Some(60.0), Some(3.0), None);
    var customer := Customer("cust_velocity", "test@example.com", "Test", 0.1);
    var i := 0;
    while i < 4
      invariant 0 <= i <= 4
      invariant detector.History(customer.id) == times[..i]
      invariant detector.velocityWindow == 60.0 && detector.maxTransactionsPerWindow == 3.0
      invariant detector.highRiskThreshold == DefaultHighRiskThreshold
    {
      var request := PaymentRequest("pay_" + Text.NatToString(i), 50.0, "USD", customer.id, "pm_1", None);
      var _ := CheckInsideWindow(detector, request, customer, times[i], times[..i]);
      assert times[..i] + [times[i]] == times[..i + 1];
      i := i + 1;
    }
    var finalRequest := PaymentRequest("pay_final", 50.0, "USD", customer.id, "pm_1", None);
    assert !IsWholeThousands(50.0);
    final := CheckInsideWindow(detector, finalRequest, customer, times[4], times[..4]);
  }

  /** With the default options, baseline 0.1 and amount 100 are approved without
      review, while baseline 0.9 is rejected whatever the other checks say. */
  lemma DefaultThresholdDecides(velocity: Check, geographic: Check)
    ensures var clean := Assess(DefaultHighRiskThreshold, 0.1, Check(true, ""), CheckAmountAnomaly(100.0), Check(true, ""));
      clean.approved && !clean.requiresReview && clean.reasons == []
    ensures !Assess(DefaultHighRiskThreshold, 0.9, velocity, CheckAmountAnomaly(100.0), geographic).approved
  {
  }
}
