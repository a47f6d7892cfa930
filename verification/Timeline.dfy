/** The deterministic evidence of a run: its timeline, its report and the bundle that is
    stored. Titles and details are left out. */
module Timeline {
  import opened Options
  import opened Text
  import opened Identifiers
  import opened Domain
  import opened StoreSpec
  import Recount = MemoryRepository

  const MILLISECOND := 1_000_000
  const MINUTE := 60_000_000_000

  datatype EventSeed = EventSeed(offset: int, typeName: string, status: EventStatus, duplicate: bool)

  /** How many events a fault's timeline has, and how long it takes in milliseconds. */
  function EventCountFor(fault: Fault): nat {
    match fault
    case Duplicate => 9
    case Reorder => 9
    case Timeout => 9
    case Tamper => 6
    case _ => 7
  }

  function DurationFor(fault: Fault): int {
    if fault == Tamper then 2260 else 4200
  }

  /** A divergence is recovered from by the very next event. */
  predicate RecoveredNext(events: seq<Event>, i: int) {
    0 <= i < |events| && events[i].status == Diverged ==> i + 1 < |events| && events[i + 1].status == Recovered
  }

  /** A block and a completion end the timeline. */
  predicate Ends(events: seq<Event>, i: int) {
    0 <= i < |events| && (events[i].status == Blocked || events[i].eventType == "run.completed") ==> i == |events| - 1
  }

  /** What a timeline shows of its fault. */
  ghost predicate Shows(events: seq<Event>, fault: Fault) {
    && (forall i :: 0 <= i < |events| ==> (events[i].isDuplicate <==> fault == Duplicate && 5 <= i <= 6))
    && ((exists i :: 0 <= i < |events| && events[i].status == Blocked) <==> fault == Tamper)
    && ((exists i :: 0 <= i < |events| && events[i].status == Diverged) <==> fault in {Duplicate, Reorder, Timeout})
    && ((exists i :: 0 <= i < |events| && events[i].eventType == "run.completed") <==> fault != Tamper)
    && (forall i :: RecoveredNext(events, i)) && (forall i :: Ends(events, i))
  }

  ghost predicate SeedsShow(seeds: seq<EventSeed>, fault: Fault) {
    && (forall i :: 0 <= i < |seeds| ==> (seeds[i].duplicate <==> fault == Duplicate && 5 <= i <= 6))
    && ((exists i :: 0 <= i < |seeds| && seeds[i].status == Blocked) <==> fault == Tamper)
    && ((exists i :: 0 <= i < |seeds| && seeds[i].status == Diverged) <==> fault in {Duplicate, Reorder, Timeout})
    && ((exists i :: 0 <= i < |seeds| && seeds[i].typeName == "run.completed") <==> fault != Tamper)
    && (forall i :: SeedRecoveredNext(seeds, i)) && (forall i :: SeedEnds(seeds, i))
  }

  predicate SeedRecoveredNext(seeds: seq<EventSeed>, i: int) {
    0 <= i < |seeds| && seeds[i].status == Diverged ==> i + 1 < |seeds| && seeds[i + 1].status == Recovered
  }

  predicate SeedEnds(seeds: seq<EventSeed>, i: int) {
    0 <= i < |seeds| && (seeds[i].status == Blocked || seeds[i].typeName == "run.completed") ==> i == |seeds| - 1
  }

  const OPENING := [
    EventSeed(0, "checkout.submitted", Healthy, false),
    EventSeed(420, "payment_intent.created", Healthy, false),
    EventSeed(980, "payment_intent.succeeded", Healthy, false),
    EventSeed(1460, "webhook.delivered", Healthy, false),
    EventSeed(1840, "event.persisted", Healthy, false)]

  const CLOSING := [
    EventSeed(3720, "order.reconciled", Recovered, false),
    EventSeed(4200, "run.completed", Healthy, false)]

  function Middle(fault: Fault): seq<EventSeed> {
    match fault
    case Duplicate =>
      [EventSeed(2260, "webhook.duplicate", Diverged, true), EventSeed(2680, "duplicate.suppressed", Recovered, true)]
    case Reorder =>
      [EventSeed(2260, "webhook.reordered", Diverged, false), EventSeed(2840, "state.hydrated", Recovered, false)]
    case Timeout =>
      [EventSeed(2260, "endpoint.timeout", Diverged, false), EventSeed(3260, "webhook.retried", Recovered, false)]
    case Tamper => [EventSeed(2260, "signature.invalid", Blocked, false)]
    case _ => []
  }

  /** The whole table of a fault. A tampered run stops at the block. */
  function SeedsFor(fault: Fault): seq<EventSeed> {
    if fault == Tamper then OPENING + Middle(fault) else OPENING + Middle(fault) + CLOSING
  }

  /** Seeds lie in time order, the first at the start. */
  predicate Paced(seeds: seq<EventSeed>) {
    |seeds| > 0 && seeds[0].offset == 0 && forall i :: 0 < i < |seeds| ==> seeds[i - 1].offset < seeds[i].offset
  }

  lemma SeedsArePaced(fault: Fault)
    ensures Paced(SeedsFor(fault)) && |SeedsFor(fault)| == EventCountFor(fault)
    ensures SeedsFor(fault)[|SeedsFor(fault)| - 1].offset == DurationFor(fault)
  {
  }

  lemma NotCompleted()
    ensures "checkout.submitted"[0] != "run.completed"[0] && "payment_intent.created"[0] != "run.completed"[0]
    ensures "payment_intent.succeeded"[0] != "run.completed"[0] && "webhook.delivered"[0] != "run.completed"[0]
    ensures "event.persisted"[0] != "run.completed"[0] && "signature.invalid"[0] != "run.completed"[0]
    ensures "order.reconciled"[0] != "run.completed"[0] && "webhook.duplicate"[0] != "run.completed"[0]
    ensures "duplicate.suppressed"[0] != "run.completed"[0] && "webhook.reordered"[0] != "run.completed"[0]
    ensures "state.hydrated"[0] != "run.completed"[0] && "endpoint.timeout"[0] != "run.completed"[0]
    ensures "webhook.retried"[0] != "run.completed"[0]
  {
  }

  lemma SeedsByPart(fault: Fault)
    ensures var seeds, n := SeedsFor(fault), 5 + |Middle(fault)|;
      && |OPENING| == 5 && |seeds| == (if fault == Tamper then n else n + 2)
      && (forall i :: 0 <= i < 5 ==> seeds[i] == OPENING[i])
      && (forall i :: 5 <= i < n ==> seeds[i] == Middle(fault)[i - 5])
      && (fault != Tamper ==> seeds[n] == CLOSING[0] && seeds[n + 1] == CLOSING[1])
  {
  }

  lemma OpeningShows()
    ensures |OPENING| == 5
    ensures forall i :: 0 <= i < 5 ==>
      OPENING[i].status == Healthy && !OPENING[i].duplicate && OPENING[i].typeName != "run.completed"
  {
    NotCompleted();
  }

  lemma SeedsShowFault(fault: Fault)
    ensures SeedsShow(SeedsFor(fault), fault)
  {
    hide SeedsFor, OPENING;
    NotCompleted();
    OpeningShows();
    SeedsByPart(fault);
    var seeds := SeedsFor(fault);
    assert |Middle(fault)| > 0 ==> seeds[5] == Middle(fault)[0];
  }

  function EventOf(seed: EventSeed, runID: string, sequence: int, started: int): Event {
    Event(runID, sequence, started + seed.offset * MILLISECOND, seed.typeName, seed.status, seed.duplicate, Simulated)
  }

  lemma EventsShow(seeds: seq<EventSeed>, events: seq<Event>, runID: string, fault: Fault, started: int)
    requires SeedsShow(seeds, fault) && |events| == |seeds|
    requires forall i :: 0 <= i < |events| ==> events[i] == EventOf(seeds[i], runID, i + 1, started)
    ensures Shows(events, fault)
  {
    assert forall i :: 0 <= i < |seeds| ==>
      events[i].isDuplicate == seeds[i].duplicate && events[i].status == seeds[i].status
      && events[i].eventType == seeds[i].typeName;
    forall i
      ensures RecoveredNext(events, i) && Ends(events, i)
    {
      assert SeedRecoveredNext(seeds, i) && SeedEnds(seeds, i);
    }
  }

  predicate InTime(events: seq<Event>, started: int, ended: int) {
    && |events| > 0 && events[0].at == started && events[|events| - 1].at == ended
    && forall i :: 0 < i < |events| ==> events[i - 1].at < events[i].at
  }

  /** A ledger in sequence and in time that shows its fault. */
  method BuildEvents(runID: string, fault: Fault, started: int) returns (events: seq<Event>)
    requires |runID| >= 4
    ensures Ledger(events, runID) && |events| == EventCountFor(fault)
    ensures InTime(events, started, started + DurationFor(fault) * MILLISECOND) && Shows(events, fault)
    ensures forall i :: 0 <= i < |events| ==> events[i].evidence == Simulated
  {
    hide SeedsFor, EventCountFor, DurationFor, SeedsShow, Shows;
    var seeds := SeedsFor(fault);
    SeedsArePaced(fault);
    SeedsShowFault(fault);
    events := [];
    for i := 0 to |seeds|
      invariant |events| == i
      invariant forall k :: 0 <= k < i ==> events[k] == EventOf(seeds[k], runID, k + 1, started)
    {
      var seed := seeds[i];
      var event := Event(runID, i + 1, started + seed.offset * MILLISECOND, seed.typeName, seed.status, seed.duplicate,
                         Simulated);
      events := events + [event];
    }
    EventsShow(seeds, events, runID, fault, started);
  }

  /** The three names that every report starts with, and the two that are added later, are
      five different names. */
  lemma NamesDiffer()
    ensures "assert_stripe_state" !in {"assert_single_effect", "assert_convergence"}
    ensures "assert_single_effect" != "assert_convergence"
    ensures MERCHANT_ASSERTION !in {"assert_stripe_state", "assert_single_effect", "assert_convergence",
                                    "assert_minor_units", WEBHOOK_ASSERTION}
    ensures WEBHOOK_ASSERTION !in {"assert_stripe_state", "assert_single_effect", "assert_convergence", "assert_minor_units"}
    ensures "assert_minor_units" !in {"assert_stripe_state", "assert_single_effect", "assert_convergence"}
  {
    assert "assert_stripe_state"[8] == 't' && "assert_single_effect"[8] == 'i' && "assert_convergence"[8] == 'o';
    assert MERCHANT_ASSERTION[8] == 'e' && MERCHANT_ASSERTION[7] == 'r';
    assert "assert_minor_units"[8] == 'i' && "assert_minor_units"[7] == 'm';
    assert WEBHOOK_ASSERTION[14] == 'w' && "assert_stripe_state"[14] == 's' && "assert_single_effect"[7] == 's';
    assert |WEBHOOK_ASSERTION| == 32 && |"assert_stripe_state"| == 19;
  }

  /** A report that agrees with its run, and condemns exactly the tampered ones. */
  method BuildReport(run: Run, fault: Fault) returns (report: Report)
    requires |run.id| >= 4
    ensures report.run == run && |report.assertions| == 3 && UniqueIDs(report.assertions) && SummaryAgrees(report)
    ensures report.summary == Summary(false, if fault == Tamper then 1 else 3, 3)
    ensures report.assertions[0] == Assertion("assert_stripe_state", fault != Tamper, run.stripeObjectID)
    ensures report.assertions[1] == Assertion("assert_single_effect", true, run.merchantOrderID)
    ensures report.assertions[2].id == "assert_convergence" && report.assertions[2].passed == (fault != Tamper)
    ensures !HasAssertion(report.assertions, MERCHANT_ASSERTION) && !HasAssertion(report.assertions, WEBHOOK_ASSERTION)
    ensures !HasAssertion(report.assertions, "assert_minor_units")
    ensures |report.findings| == if fault == NoFault then 0 else 1
    ensures forall f :: f in report.findings ==> (f.critical <==> fault == Tamper) && (f.resolved <==> fault != Tamper)
    ensures report.balanced <==> fault != Tamper
    ensures report.generatedAt > run.completedAt
  {
    NamesDiffer();
    var assertions := [
      Assertion("assert_stripe_state", true, run.stripeObjectID),
      Assertion("assert_single_effect", true, run.merchantOrderID),
      Assertion("assert_convergence", true, "stripe = webhook = merchant")];
    var findings: seq<Finding> := [];
    if fault != NoFault {
      findings := findings + [Finding("finding_" + run.id[4..], false, fault != Tamper)];
    }
    if fault == Tamper {
      assertions := assertions[0 := assertions[0].(passed := false)];
      assertions := assertions[2 := assertions[2].(passed := false)];
      findings := findings[0 := findings[0].(critical := true)];
    }
    PassedOfThree(assertions);
    var passed := Recount.CountPassed(assertions);
    report := Report(run, Summary(false, passed, |assertions|), assertions, findings, fault != Tamper,
                     run.completedAt + 20 * MILLISECOND);
  }

  lemma PassedOfThree(a: seq<Assertion>)
    requires |a| == 3
    ensures PassedCount(a) == (if a[0].passed then 1 else 0) + (if a[1].passed then 1 else 0) + (if a[2].passed then 1 else 0)
  {
    assert a[..2][..1] == a[..1] && a[..1][..0] == [];
    assert PassedCount(a[..1]) == if a[0].passed then 1 else 0;
    assert PassedCount(a[..2]) == PassedCount(a[..1]) + if a[1].passed then 1 else 0;
  }

  function ScoreForFault(fault: Fault): int {
    if fault == Tamper then 72 else if fault == NoFault then 100 else 96
  }

  /** Everything that is stored for a run, in agreement: the run is terminal when created,
      counts its events and findings, and fails exactly when it was tampered with. */
  method BuildRunBundle(id: string, number: nat, scenarioID: string, fault: Fault, started: int) returns (b: RunBundle)
    requires |id| >= 4
    ensures WellFormedBundle(b) && b.run.id == id && b.run.fault == fault && b.run.scenarioID == scenarioID
    ensures b.verificationFault == fault && b.topic == NoTopic && b.correlationID == ""
    ensures b.run.status == (if fault == Tamper then Failed else Passed)
    ensures b.run.startedAt == started && b.run.completedAt == b.events[|b.events| - 1].at
    ensures b.run.completedAt == started + (if fault == Tamper then 2_260_000_000 else 4_200_000_000)
    ensures b.run.findingCount == |b.report.findings| == (if fault == NoFault then 0 else 1)
    ensures b.run.eventCount
         == match fault { case Duplicate => 9 case Reorder => 9 case Timeout => 9 case Tamper => 6 case _ => 7 }
    ensures b.report.balanced == b.run.recovered == (fault != Tamper)
    ensures Shows(b.events, fault) && b.run.environment == "sandbox" && b.run.stripeObjectID == "pi_demo_" + Pad6(number)
    ensures b.run.score == match fault { case NoFault => 100 case Tamper => 72 case _ => 96 }
    ensures !HasAssertion(b.report.assertions, "assert_minor_units")
    ensures forall i :: 0 <= i < |b.events| ==> b.events[i].evidence == Simulated
  {
    var events := BuildEvents(id, fault, started);
    var duration := events[|events| - 1].at - events[0].at;
    var run := Run(id, scenarioID, fault, Passed, ScoreForFault(fault), started, started + duration,
                   |events|, if fault == NoFault then 0 else 1, fault != Tamper,
                   "sandbox", "pi_demo_" + Pad6(number), "ord_" + Pad6(number));
    if fault == Tamper {
      run := run.(status := Failed);
    }
    var report := BuildReport(run, fault);
    b := RunBundle(run, events, report, NoTopic, "", fault);
  }

  // ----- Stripe runs -----

  datatype Intent = Intent(id: string, amount: int, currency: string)

  /** A Stripe run: the same evidence about a real intent, with one assertion more, which
      passes exactly when Stripe stored the amount and the currency that were asked for. */
  method AttachIntent(bundle: RunBundle, amount: int, currency: string, intent: Intent, correlationID: string)
    returns (b: RunBundle)
    requires WellFormedBundle(bundle) && bundle.run.fault == Duplicate && |bundle.run.id| >= 4
    ensures WellFormedBundle(b)
    ensures b.run == bundle.run.(stripeObjectID := intent.id)
    ensures b.topic == VerificationQueued && b.correlationID == correlationID && b.verificationFault == bundle.verificationFault
    ensures |b.events| == |bundle.events|
    ensures forall i :: 0 <= i < |b.events| ==>
      b.events[i] == bundle.events[i].(evidence := SandboxPayment(amount, currency, intent.id, correlationID))
    ensures |b.report.assertions| == 4 && b.report.assertions[3].id == "assert_minor_units"
    ensures b.report.assertions[3].passed <==> intent.amount == amount && intent.currency == currency
    ensures b.report.summary.passed == 3 + (if intent.amount == amount && intent.currency == currency then 1 else 0)
  {
    NamesDiffer();
    b := bundle.(topic := VerificationQueued, correlationID := correlationID,
                 run := bundle.run.(stripeObjectID := intent.id));
    var events := b.events;
    for index := 0 to |b.events|
      invariant |events| == |b.events|
      invariant forall i :: 0 <= i < index ==>
        events[i] == b.events[i].(evidence := SandboxPayment(amount, currency, intent.id, correlationID))
      invariant forall i :: index <= i < |events| ==> events[i] == b.events[i]
    {
      events := events[index := events[index].(evidence := SandboxPayment(amount, currency, intent.id, correlationID))];
    }
    var report := BuildReport(b.run, Duplicate);
    var minorUnits := Assertion("assert_minor_units", intent.amount == amount && intent.currency == currency, intent.id);
    AddedName(report.assertions, minorUnits);
    var assertions := report.assertions + [minorUnits];
    assert assertions[..3] == report.assertions;
    var passed := Recount.CountPassed(assertions);
    report := report.(assertions := assertions, summary := Summary(false, passed, |assertions|));
    b := b.(events := events, report := report);
  }

  lemma AddedName(assertions: seq<Assertion>, a: Assertion)
    requires UniqueIDs(assertions) && !HasAssertion(assertions, a.id)
    ensures UniqueIDs(assertions + [a])
    ensures forall id :: HasAssertion(assertions + [a], id) ==> HasAssertion(assertions, id) || id == a.id
  {
  }
}
