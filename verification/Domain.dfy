/** The records that the engine stores. Titles, details and messages are left out:
    what stays are identifiers, flags, counts, statuses and times (nanoseconds). */
module Domain {
  import opened Options
  import opened Hex

  /** Go's Fault is a string with five named values; anything else may still arrive. */
  datatype Fault = Unset | NoFault | Duplicate | Reorder | Timeout | Tamper | OtherFault(name: string)

  datatype RunStatus = Running | Passed | Failed

  datatype Run = Run(
    id: string, scenarioID: string, fault: Fault, status: RunStatus, score: int,
    startedAt: int, completedAt: int, eventCount: int, findingCount: int, recovered: bool,
    environment: string, stripeObjectID: string, merchantOrderID: string)

  datatype EventStatus = Healthy | Diverged | Recovered | Blocked

  datatype Evidence =
    | Simulated
    | SandboxPayment(amountMinor: int, currency: string, intentID: string, intentCorrelation: string)
    | StripeWebhook(stripeEventID: string, objectID: string, objectStatus: string, correlationID: string)

  datatype Event = Event(
    runID: string, sequence: int, at: int, eventType: string,
    status: EventStatus, isDuplicate: bool, evidence: Evidence)

  datatype Assertion = Assertion(id: string, passed: bool, evidence: string)

  datatype Finding = Finding(id: string, critical: bool, resolved: bool)

  /** "p of n deterministic/verification assertions passed." */
  datatype Summary = Summary(verified: bool, passed: int, total: int)

  datatype Report = Report(
    run: Run, summary: Summary, assertions: seq<Assertion>, findings: seq<Finding>,
    balanced: bool, generatedAt: int)

  datatype Topic = NoTopic | RunPersisted | VerificationQueued | WebhookReceived | OtherTopic(name: string)

  /** The atomic persistence unit for a finished deterministic run. */
  datatype RunBundle = RunBundle(
    run: Run, events: seq<Event>, report: Report, topic: Topic,
    correlationID: string, verificationFault: Fault)

  datatype WebhookReceipt = WebhookReceipt(
    eventID: string, eventType: string, endpointTokenSHA: Hash, bodySHA: Hash,
    stripeCreatedAt: Option<int>, stripeObjectID: string, objectStatus: string, correlationID: string)

  datatype WebhookStatus = Pending | Matched | Unmatched | Ignored

  datatype ProcessingCode =
    | NoCode | UnsupportedEventType | MissingStripeObjectID | MissingCorrelationID
    | RunNotFound | CorrelationMismatch | AmbiguousRunMatch

  datatype WebhookResult = WebhookResult(
    eventID: string, eventType: string, status: WebhookStatus, runID: string,
    projectID: string, code: ProcessingCode, alreadyProcessed: bool)

  const MERCHANT_ASSERTION := "assert_reference_merchant_exactly_once"
  const WEBHOOK_ASSERTION := "assert_stripe_webhook_correlated"

  predicate IsTerminalRun(run: Run) {
    run.status == Passed || run.status == Failed
  }

  predicate HasAssertion(assertions: seq<Assertion>, id: string) {
    exists i :: 0 <= i < |assertions| && assertions[i].id == id
  }

  predicate UniqueIDs(assertions: seq<Assertion>) {
    forall i, j :: 0 <= i < j < |assertions| ==> assertions[i].id != assertions[j].id
  }

  function PassedCount(assertions: seq<Assertion>): (n: nat)
    ensures n <= |assertions|
  {
    if assertions == [] then 0
    else PassedCount(assertions[..|assertions| - 1]) + if assertions[|assertions| - 1].passed then 1 else 0
  }

  /** The ledger of a run: its own events, numbered from one without gaps. */
  predicate Numbered(events: seq<Event>) {
    forall i :: 0 <= i < |events| ==> events[i].sequence == i + 1
  }

  predicate Ledger(events: seq<Event>, runID: string) {
    && Numbered(events)
    && forall i :: 0 <= i < |events| ==> events[i].runID == runID
  }

  predicate SummaryAgrees(report: Report) {
    && report.summary.passed == PassedCount(report.assertions)
    && report.summary.total == |report.assertions|
  }

  /** What a freshly built bundle promises to the repository. */
  predicate WellFormedBundle(b: RunBundle) {
    && Ledger(b.events, b.run.id)
    && b.run.eventCount == |b.events| && |b.events| > 0
    && IsTerminalRun(b.run)
    && (forall i :: 0 <= i < |b.events| ==> !b.events[i].evidence.StripeWebhook?)
    && b.report.run == b.run
    && UniqueIDs(b.report.assertions)
    && SummaryAgrees(b.report)
    && !HasAssertion(b.report.assertions, MERCHANT_ASSERTION)
    && !HasAssertion(b.report.assertions, WEBHOOK_ASSERTION)
  }
}
