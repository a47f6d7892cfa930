/** Over a fixed set of runs it does not matter in which order, how often and when pending
    receipts and verdicts are processed: what is processed determines the results, the runs,
    the reports up to the order of their assertions, and the ledgers up to the order and the
    numbering of what was appended, and the time of processing where that is recorded. */
module OrderIndependence {
  import opened Options
  import opened Hex
  import opened Domain
  import opened Sequences
  import opened StoreSpec
  import opened Verification
  import opened Jobs
  import opened Consistency

  datatype Work = Webhook(eventID: string) | RunVerdict(runID: string)

  /** The verdict that every execution of a run's relay records. */
  function VerdictOf(run: Run): Assertion {
    Assertion(MERCHANT_ASSERTION, true, CONTRACT_VERSION + ":" + FaultName(run.fault))
  }

  function MarkOf(run: Run): Assertion {
    Assertion(WEBHOOK_ASSERTION, true, "stripe_object:" + run.stripeObjectID)
  }

  ghost predicate WorkStep(s: Store, work: Work, now: int, s': Store) {
    Aligned(s) &&
    match work
    case Webhook(e) => s' == ProcessStripeWebhook(s, e, now).0
    case RunVerdict(r) => s' == if r in s.runs then RecordVerification(s, r, VerdictOf(s.runs[r])).0 else s
  }

  ghost predicate WorkAt(states: seq<Store>, works: seq<Work>, times: seq<int>, i: nat)
    requires |states| == |works| + 1 && |times| == |works| && i < |works|
  {
    WorkStep(states[i], works[i], times[i], states[i + 1])
  }

  /** A sequence of works from a store on, each at its own time. */
  ghost predicate Worked(states: seq<Store>, works: seq<Work>, times: seq<int>) {
    && |states| == |works| + 1 && |times| == |works|
    && forall i: nat :: i < |works| ==> WorkAt(states, works, times, i)
  }

  /** Receipts are stored under their event identifiers. */
  predicate ByEvent(receipts: map<string, WebhookReceipt>) {
    forall e :: e in receipts ==> receipts[e].eventID == e
  }

  /** The events of which Stripe did not say when it created them; their ledger entries carry
      the time of processing instead. */
  ghost function Undated(s: Store): set<string> {
    set e | e in s.webhooks && s.webhooks[e].stripeCreatedAt.None?
  }

  // ----- what a set of works amounts to -----

  /** The pending events of a set that belong to a run. */
  ghost function MatchedTo(s0: Store, es: set<string>, r: string): set<string> {
    set e | e in es && e in s0.webhooks && e !in s0.webhookResults && Classify(s0, s0.webhooks[e]) == Match(r)
  }

  /** What a receipt adds to a ledger, but for its number and the time of processing. */
  function EventFor(receipt: WebhookReceipt, r: string): Event {
    BuildWebhookRunEvent(receipt, r, 0, 0)
  }

  ghost function Owed(s0: Store, es: set<string>, r: string): set<Event> {
    set e | e in MatchedTo(s0, es, r) :: EventFor(s0.webhooks[e], r)
  }

  ghost function Marks(s0: Store, es: set<string>, vs: set<string>, r: string): set<Assertion>
    requires r in s0.runs && r in s0.reports
  {
    var base := s0.reports[r].assertions;
    (if MatchedTo(s0, es, r) != {} && !HasAssertion(base, WEBHOOK_ASSERTION) then {MarkOf(s0.runs[r])} else {})
    + (if r in vs && !HasAssertion(base, MERCHANT_ASSERTION) then {VerdictOf(s0.runs[r])} else {})
  }

  // ----- ledgers and reports that start from a base -----

  /** An event without its number, and without its time if that is the time of processing. */
  function BareEvent(e: Event, undated: set<string>): Event {
    e.(sequence := 0, at := if e.evidence.StripeWebhook? && e.evidence.stripeEventID in undated then 0 else e.at)
  }

  function Bare(events: seq<Event>, undated: set<string>): (b: seq<Event>)
    ensures |b| == |events|
  {
    seq(|events|, i requires 0 <= i < |events| => BareEvent(events[i], undated))
  }

  /** A ledger that grew from a base by certain events, each once. */
  ghost predicate GrewBy(base: seq<Event>, ledger: seq<Event>, owed: set<Event>, undated: set<string>) {
    && base <= ledger
    && AllDistinct(Bare(ledger[|base|..], undated)) && Elements(Bare(ledger[|base|..], undated)) == owed
  }

  /** A report that grew from a base by certain assertions, each once. */
  ghost predicate ReportGrewBy(base: Report, report: Report, run: Run, marks: set<Assertion>) {
    && base.assertions <= report.assertions && UniqueIDs(report.assertions)
    && Elements(report.assertions[|base.assertions|..]) == marks
    && report == base.(run := run, assertions := report.assertions,
                       summary := if marks == {} then base.summary
                                  else Summary(true, PassedCount(report.assertions), |report.assertions|))
  }

  // ----- the invariant -----

  ghost predicate RunFrom(s0: Store, s: Store, es: set<string>, vs: set<string>, r: string) {
    r in s0.runs && r in s.runs && r in s0.events && r in s.events && r in s0.reports && r in s.reports
    && GrewBy(s0.events[r], s.events[r], Owed(s0, es, r), Undated(s0))
    && s.runs[r] == s0.runs[r].(eventCount := |s.events[r]|)
    && ReportGrewBy(s0.reports[r], s.reports[r], s.runs[r], Marks(s0, es, vs, r))
  }

  ghost predicate RunsFrom(s0: Store, s: Store, es: set<string>, vs: set<string>) {
    s.runs.Keys == s0.runs.Keys && forall r :: r in s0.runs ==> RunFrom(s0, s, es, vs, r)
  }

  ghost function ResultFor(s0: Store, e: string): WebhookResult
    requires e in s0.webhooks
  {
    if e in s0.webhookResults then s0.webhookResults[e]
    else ResultOf(s0, s0.webhooks[e], Classify(s0, s0.webhooks[e]))
  }

  ghost predicate ResultsFrom(s0: Store, s: Store, es: set<string>) {
    forall e :: (e in s.webhookResults <==> e in s0.webhookResults || (e in es && e in s0.webhooks))
                && (e in s.webhookResults && e in s0.webhooks ==> s.webhookResults[e] == ResultFor(s0, e))
  }

  /** Everything that decides where receipts belong, and that works leave alone. */
  function Rest(s: Store): Store {
    s.(runs := map[], events := map[], reports := map[], webhookResults := map[],
       queue := EMPTY.queue, merchantEffects := map[], nextRun := 0)
  }

  /** What else works leave alone. */
  predicate Untouched(s0: Store, s: Store) {
    s.queue == s0.queue && s.merchantEffects == s0.merchantEffects && s.nextRun == s0.nextRun
  }

  ghost predicate From(s0: Store, s: Store, es: set<string>, vs: set<string>) {
    && ByEvent(s0.webhooks) && Rest(s) == Rest(s0)
    && RunsFrom(s0, s, es, vs) && ResultsFrom(s0, s, es)
  }

  /** Where a receipt belongs does not change while works are processed. */
  lemma ClassifyStays(s0: Store, s: Store, r: WebhookReceipt)
    requires s.runs.Keys == s0.runs.Keys && s.correlationByRun == s0.correlationByRun
    requires forall x :: x in s0.runs ==> s.runs[x].stripeObjectID == s0.runs[x].stripeObjectID
    ensures Classify(s, r) == Classify(s0, r)
  {
    assert ObjectMatches(s, r.stripeObjectID) == ObjectMatches(s0, r.stripeObjectID);
    var c := CorrelatedMatches(s, r.stripeObjectID, r.correlationID);
    assert c == CorrelatedMatches(s0, r.stripeObjectID, r.correlationID);
    if Classify(s, r).Match? {
      var a, b := Classify(s, r).runID, Classify(s0, r).runID;
      assert |c - {a}| == |c| - 1;
      assert a in c && b in c && |c| == 1;
      assert c - {a} == {};
    }
  }

  lemma ClassifyFrom(s0: Store, s: Store, es: set<string>, vs: set<string>, r: WebhookReceipt)
    requires From(s0, s, es, vs)
    ensures Classify(s, r) == Classify(s0, r)
    ensures s.correlationByRun == s0.correlationByRun && s.projectByRun == s0.projectByRun && s.webhooks == s0.webhooks
  {
    hide Classify, GrewBy, ReportGrewBy, Owed, Marks, ResultsFrom;
    assert Rest(s).correlationByRun == Rest(s0).correlationByRun;
    assert Rest(s).projectByRun == Rest(s0).projectByRun && Rest(s).webhooks == Rest(s0).webhooks;
    forall x | x in s0.runs
      ensures s.runs[x].stripeObjectID == s0.runs[x].stripeObjectID
    {
      assert RunFrom(s0, s, es, vs, x);
    }
    ClassifyStays(s0, s, r);
  }

  // ----- one more receipt -----

  /** A receipt that changes no match changes nothing that is owed. */
  lemma NoMatch(s0: Store, es: set<string>, e: string)
    requires e in es || e !in s0.webhooks || e in s0.webhookResults || Classify(s0, s0.webhooks[e]).Settle?
    ensures forall r :: MatchedTo(s0, es + {e}, r) == MatchedTo(s0, es, r)
  {
    hide Classify;
    forall r
      ensures MatchedTo(s0, es + {e}, r) == MatchedTo(s0, es, r)
    {
    }
  }

  lemma NewMatch(s0: Store, es: set<string>, e: string, r: string)
    requires e in s0.webhooks && e !in s0.webhookResults && Classify(s0, s0.webhooks[e]) == Match(r)
    ensures MatchedTo(s0, es + {e}, r) == MatchedTo(s0, es, r) + {e}
    ensures forall x :: x != r ==> MatchedTo(s0, es + {e}, x) == MatchedTo(s0, es, x)
  {
    hide Classify;
  }

  lemma NoMatchRuns(s0: Store, s: Store, es: set<string>, vs: set<string>, e: string)
    requires RunsFrom(s0, s, es, vs)
    requires e in es || e !in s0.webhooks || e in s0.webhookResults || Classify(s0, s0.webhooks[e]).Settle?
    ensures RunsFrom(s0, s, es + {e}, vs)
  {
    hide GrewBy, ReportGrewBy, Classify, MatchedTo;
    NoMatch(s0, es, e);
    forall r | r in s0.runs
      ensures RunFrom(s0, s, es + {e}, vs, r)
    {
      assert RunFrom(s0, s, es, vs, r);
    }
  }

  lemma GrownLedger(base: seq<Event>, ledger: seq<Event>, owed: set<Event>, undated: set<string>, event: Event)
    requires GrewBy(base, ledger, owed, undated) && BareEvent(event, undated) !in owed
    ensures GrewBy(base, ledger + [event], owed + {BareEvent(event, undated)}, undated)
  {
    var tail := ledger[|base|..];
    assert (ledger + [event])[|base|..] == tail + [event];
    assert Bare(tail + [event], undated) == Bare(tail, undated) + [BareEvent(event, undated)];
    ElementsAppend(Bare(tail, undated), BareEvent(event, undated));
  }

  /** Events of different receipts stay different without their numbers. */
  lemma OwedMore(s0: Store, es: set<string>, e: string, r: string)
    requires ByEvent(s0.webhooks)
    requires e in s0.webhooks && e !in s0.webhookResults && Classify(s0, s0.webhooks[e]) == Match(r)
    ensures Owed(s0, es + {e}, r) == Owed(s0, es, r) + {EventFor(s0.webhooks[e], r)}
    ensures e !in es ==> EventFor(s0.webhooks[e], r) !in Owed(s0, es, r)
    ensures forall x :: x != r ==> Owed(s0, es + {e}, x) == Owed(s0, es, x)
  {
    hide Classify, MatchedTo;
    NewMatch(s0, es, e, r);
    InMatched(s0, es, r);
    forall x | x in MatchedTo(s0, es, r) && x != e
      ensures EventFor(s0.webhooks[x], r) != EventFor(s0.webhooks[e], r)
    {
      assert EventFor(s0.webhooks[x], r).evidence.stripeEventID == x;
      assert EventFor(s0.webhooks[e], r).evidence.stripeEventID == e;
    }
  }

  lemma InMatched(s0: Store, es: set<string>, r: string)
    ensures MatchedTo(s0, es, r) <= es && forall x :: x in MatchedTo(s0, es, r) ==> x in s0.webhooks
  {
  }

  lemma GrownReport(base: Report, report: Report, run: Run, run': Run, marks: set<Assertion>, a: Assertion)
    requires ReportGrewBy(base, report, run, marks)
    ensures HasAssertion(report.assertions, a.id) ==> ReportGrewBy(base, AddOnce(report.(run := run'), a), run', marks)
    ensures !HasAssertion(report.assertions, a.id) ==> ReportGrewBy(base, AddOnce(report.(run := run'), a), run', marks + {a})
  {
    hide PassedCount, Elements;
    if !HasAssertion(report.assertions, a.id) {
      var tail := report.assertions[|base.assertions|..];
      assert (report.assertions + [a])[|base.assertions|..] == tail + [a];
      ElementsAppend(tail, a);
      StaysUnique(report.assertions, a);
      assert marks + {a} != {};
    }
  }

  lemma StaysUnique(assertions: seq<Assertion>, a: Assertion)
    requires UniqueIDs(assertions) && !HasAssertion(assertions, a.id)
    ensures UniqueIDs(assertions + [a])
  {
  }

  /** Which identifiers a grown report carries. */
  lemma GrownHas(base: Report, report: Report, run: Run, marks: set<Assertion>, id: string)
    requires ReportGrewBy(base, report, run, marks)
    ensures HasAssertion(report.assertions, id) <==> HasAssertion(base.assertions, id) || exists a :: a in marks && a.id == id
  {
    var k := |base.assertions|;
    var tail := report.assertions[k..];
    if HasAssertion(report.assertions, id) {
      var i :| 0 <= i < |report.assertions| && report.assertions[i].id == id;
      if i < k {
        assert base.assertions[i].id == id;
      } else {
        assert tail[i - k] in Elements(tail);
      }
    }
    if HasAssertion(base.assertions, id) {
      var i :| 0 <= i < k && base.assertions[i].id == id;
      assert report.assertions[i].id == id;
    }
    forall a | a in marks && a.id == id
      ensures HasAssertion(report.assertions, id)
    {
      assert a in Elements(tail);
      var j :| 0 <= j < |tail| && tail[j] == a;
      assert report.assertions[k + j].id == id;
    }
  }

  lemma MarksAfterMatch(s0: Store, es: set<string>, vs: set<string>, e: string, r: string)
    requires r in s0.runs && r in s0.reports
    requires e in s0.webhooks && e !in s0.webhookResults && Classify(s0, s0.webhooks[e]) == Match(r)
    ensures var has := HasAssertion(s0.reports[r].assertions, WEBHOOK_ASSERTION)
                       || exists a :: a in Marks(s0, es, vs, r) && a.id == WEBHOOK_ASSERTION;
      Marks(s0, es + {e}, vs, r) == if has then Marks(s0, es, vs, r) else Marks(s0, es, vs, r) + {MarkOf(s0.runs[r])}
  {
    hide Classify, MatchedTo;
    NewMatch(s0, es, e, r);
    assert MERCHANT_ASSERTION[7] != WEBHOOK_ASSERTION[7];
    var before := Marks(s0, es, vs, r);
    if MatchedTo(s0, es, r) != {} && !HasAssertion(s0.reports[r].assertions, WEBHOOK_ASSERTION) {
      assert MarkOf(s0.runs[r]) in before;
    }
  }

  lemma BareIsOwed(s0: Store, e: string, r: string, n: int, now: int)
    requires ByEvent(s0.webhooks) && e in s0.webhooks
    ensures BareEvent(BuildWebhookRunEvent(s0.webhooks[e], r, n, now), Undated(s0)) == EventFor(s0.webhooks[e], r)
  {
  }

  /** The matched run itself. */
  lemma MatchRunFrom(s0: Store, s: Store, es: set<string>, vs: set<string>, e: string, r: string, now: int)
    requires From(s0, s, es, vs) && Aligned(s) && r in s0.runs
    requires e in s0.webhooks && e !in s0.webhookResults && e !in es && Classify(s0, s0.webhooks[e]) == Match(r)
    ensures RunFrom(s0, ProjectWebhook(s, s0.webhooks[e], r, now), es + {e}, vs, r)
  {
    hide Classify, MatchedTo, GrewBy, ReportGrewBy, Owed, Marks, AddOnce, ResultsFrom, Rest;
    assert RunFrom(s0, s, es, vs, r);
    var receipt := s0.webhooks[e];
    var event := BuildWebhookRunEvent(receipt, r, NextSequence(s.events[r]), now);
    BareIsOwed(s0, e, r, NextSequence(s.events[r]), now);
    OwedMore(s0, es, e, r);
    GrownLedger(s0.events[r], s.events[r], Owed(s0, es, r), Undated(s0), event);
    var run' := s.runs[r].(eventCount := |s.events[r] + [event]|);
    MatchObject(s0, receipt, r);
    GrownReport(s0.reports[r], s.reports[r], s.runs[r], run', Marks(s0, es, vs, r), WebhookCorrelationAssertion(receipt));
    GrownHas(s0.reports[r], s.reports[r], s.runs[r], Marks(s0, es, vs, r), WEBHOOK_ASSERTION);
    MarksAfterMatch(s0, es, vs, e, r);
  }

  lemma MatchObject(s0: Store, receipt: WebhookReceipt, r: string)
    requires Classify(s0, receipt) == Match(r) && r in s0.runs
    ensures WebhookCorrelationAssertion(receipt) == MarkOf(s0.runs[r])
  {
  }

  lemma OtherRunFrom(s0: Store, s: Store, es: set<string>, vs: set<string>, e: string, r: string, x: string, s': Store)
    requires RunFrom(s0, s, es, vs, x) && x != r
    requires e in s0.webhooks && e !in s0.webhookResults && Classify(s0, s0.webhooks[e]) == Match(r)
    requires x in s'.runs && x in s'.events && x in s'.reports
    requires s'.runs[x] == s.runs[x] && s'.events[x] == s.events[x] && s'.reports[x] == s.reports[x]
    ensures RunFrom(s0, s', es + {e}, vs, x)
  {
    hide Classify, MatchedTo, GrewBy, ReportGrewBy;
    NewMatch(s0, es, e, r);
  }

  lemma MatchRuns(s0: Store, s: Store, es: set<string>, vs: set<string>, e: string, r: string, now: int)
    requires From(s0, s, es, vs) && Aligned(s) && r in s0.runs
    requires e in s0.webhooks && e !in s0.webhookResults && e !in es && Classify(s0, s0.webhooks[e]) == Match(r)
    ensures RunsFrom(s0, ProjectWebhook(s, s0.webhooks[e], r, now), es + {e}, vs)
  {
    hide Classify, RunFrom, ResultsFrom, Rest, AddOnce, NextSequence;
    MatchRunFrom(s0, s, es, vs, e, r, now);
    ProjectAligned(s, s0.webhooks[e], r, now);
    var s' := ProjectWebhook(s, s0.webhooks[e], r, now);
    forall x | x in s0.runs && x != r
      ensures RunFrom(s0, s', es + {e}, vs, x)
    {
      OtherRunFrom(s0, s, es, vs, e, r, x, s');
    }
  }

  lemma SettledResults(s0: Store, s: Store, es: set<string>, e: string, result: WebhookResult)
    requires ResultsFrom(s0, s, es) && e in s0.webhooks && e !in s0.webhookResults && result == ResultFor(s0, e)
    ensures ResultsFrom(s0, s.(webhookResults := s.webhookResults[e := result]), es + {e})
  {
    hide ResultFor;
  }

  lemma KnownResults(s0: Store, s: Store, es: set<string>, e: string)
    requires ResultsFrom(s0, s, es) && (e in s.webhookResults || e !in s0.webhooks)
    ensures ResultsFrom(s0, s, es + {e})
    ensures e in es || e !in s0.webhooks || e in s0.webhookResults
  {
    hide ResultFor;
  }

  lemma ResultStays(s0: Store, s: Store, r: WebhookReceipt, v: Verdict)
    requires s.projectByRun == s0.projectByRun
    ensures ResultOf(s, r, v) == ResultOf(s0, r, v)
  {
  }

  lemma LedgerOf(s: Store, r: string)
    requires Consistent(s) && r in s.runs
    ensures Aligned(s) && r in s.events && r in s.reports && Numbered(s.events[r])
  {
    hide MailOK, ProjectionsSettled, ProjectionsMatch, ProjectionsMarked, ResultsOK, NamesOK, OneKeyEach;
    assert RunOK(r, s.runs[r], s.events[r], s.reports[r]);
  }

  lemma WebhookFrom(s0: Store, s: Store, es: set<string>, vs: set<string>, e: string, now: int)
    requires From(s0, s, es, vs) && Consistent(s) && Aligned(s)
    ensures From(s0, ProcessStripeWebhook(s, e, now).0, es + {e}, vs)
  {
    hide Consistent, Aligned, RunsFrom, ResultsFrom, Classify, NextSequence, AddOnce;
    if e in s.webhookResults || e !in s.webhooks {
      assert Rest(s).webhooks == Rest(s0).webhooks;
      KnownResults(s0, s, es, e);
      NoMatchRuns(s0, s, es, vs, e);
    } else {
      var r := s.webhooks[e];
      ClassifyFrom(s0, s, es, vs, r);
      var v := Classify(s0, r);
      ResultStays(s0, s, r, v);
      UnknownResult(s0, s, es, e);
      var s' := ProcessStripeWebhook(s, e, now).0;
      SettledResults(s0, s, es, e, ResultOf(s0, r, v));
      SameResults(s0, s.(webhookResults := s.webhookResults[e := ResultOf(s0, r, v)]), s', es + {e});
      match v {
        case Settle(_, _) =>
          NoMatchRuns(s0, s, es, vs, e);
          SameRuns(s0, s, s', es + {e}, vs);
        case Match(x) =>
          MatchInRuns(s, r, x);
          KeysFrom(s0, s, es, vs);
          LedgerOf(s, x);
          MatchRuns(s0, s, es, vs, e, x, now);
          SameRuns(s0, ProjectWebhook(s, r, x, now), s', es + {e}, vs);
      }
    }
  }

  lemma MatchInRuns(s: Store, r: WebhookReceipt, x: string)
    requires Classify(s, r) == Match(x)
    ensures x in s.runs
  {
  }

  lemma KeysFrom(s0: Store, s: Store, es: set<string>, vs: set<string>)
    requires From(s0, s, es, vs)
    ensures s.runs.Keys == s0.runs.Keys
  {
  }

  lemma UnknownResult(s0: Store, s: Store, es: set<string>, e: string)
    requires ResultsFrom(s0, s, es) && e in s0.webhooks && e !in s.webhookResults
    ensures e !in s0.webhookResults && e !in es
  {
  }

  lemma SameResults(s0: Store, s: Store, s': Store, es: set<string>)
    requires ResultsFrom(s0, s, es) && s'.webhookResults == s.webhookResults
    ensures ResultsFrom(s0, s', es)
  {
  }

  lemma SameRuns(s0: Store, s: Store, s': Store, es: set<string>, vs: set<string>)
    requires RunsFrom(s0, s, es, vs)
    requires s'.runs == s.runs && s'.events == s.events && s'.reports == s.reports
    ensures RunsFrom(s0, s', es, vs)
  {
    hide GrewBy, ReportGrewBy, Owed, Marks;
    forall r | r in s0.runs
      ensures RunFrom(s0, s', es, vs, r)
    {
      assert RunFrom(s0, s, es, vs, r);
    }
  }

  // ----- one more verdict -----

  lemma MarksAfterVerdict(s0: Store, es: set<string>, vs: set<string>, r: string)
    requires r in s0.runs && r in s0.reports
    ensures var has := HasAssertion(s0.reports[r].assertions, MERCHANT_ASSERTION)
                       || exists a :: a in Marks(s0, es, vs, r) && a.id == MERCHANT_ASSERTION;
      Marks(s0, es, vs + {r}, r) == if has then Marks(s0, es, vs, r) else Marks(s0, es, vs, r) + {VerdictOf(s0.runs[r])}
  {
    hide MatchedTo;
    assert MERCHANT_ASSERTION[7] != WEBHOOK_ASSERTION[7];
    var before := Marks(s0, es, vs, r);
    if r in vs && !HasAssertion(s0.reports[r].assertions, MERCHANT_ASSERTION) {
      assert VerdictOf(s0.runs[r]) in before;
    }
  }

  lemma VerdictFrom(s0: Store, s: Store, es: set<string>, vs: set<string>, r: string)
    requires From(s0, s, es, vs) && Aligned(s)
    ensures r in s.runs ==> From(s0, RecordVerification(s, r, VerdictOf(s.runs[r])).0, es, vs + {r})
    ensures r !in s.runs ==> From(s0, s, es, vs + {r})
  {
    hide ResultsFrom, GrewBy, ReportGrewBy, Owed, Marks, MatchedTo, AddOnce;
    var s' := if r in s.runs then RecordVerification(s, r, VerdictOf(s.runs[r])).0 else s;
    SameResults(s0, s, s', es);
    forall x | x in s0.runs
      ensures RunFrom(s0, s', es, vs + {r}, x)
    {
      assert RunFrom(s0, s, es, vs, x);
      if x == r {
        var marks := Marks(s0, es, vs, r);
        SameRunField(s.reports[r], s0.reports[r], s.runs[r], marks);
        GrownReport(s0.reports[r], s.reports[r], s.runs[r], s.runs[r], marks, VerdictOf(s0.runs[r]));
        GrownHas(s0.reports[r], s.reports[r], s.runs[r], marks, MERCHANT_ASSERTION);
        MarksAfterVerdict(s0, es, vs, r);
      } else {
        OtherMarks(s0, es, vs, r, x);
      }
    }
  }

  lemma OtherMarks(s0: Store, es: set<string>, vs: set<string>, r: string, x: string)
    requires x in s0.runs && x in s0.reports && x != r
    ensures Marks(s0, es, vs + {r}, x) == Marks(s0, es, vs, x)
  {
  }

  lemma SameRunField(report: Report, base: Report, run: Run, marks: set<Assertion>)
    requires ReportGrewBy(base, report, run, marks)
    ensures report.(run := run) == report
  {
  }

  // ----- sequences of works -----

  ghost function EventsIn(works: seq<Work>): set<string> {
    set w | w in works && w.Webhook? :: w.eventID
  }

  ghost function RunsIn(works: seq<Work>): set<string> {
    set w | w in works && w.RunVerdict? :: w.runID
  }

  lemma WorksAppend(works: seq<Work>, w: Work)
    ensures EventsIn(works + [w]) == EventsIn(works) + (if w.Webhook? then {w.eventID} else {})
    ensures RunsIn(works + [w]) == RunsIn(works) + (if w.RunVerdict? then {w.runID} else {})
  {
    ElementsAppend(works, w);
    forall x
      ensures x in works + [w] <==> x in works || x == w
    {
      assert x in Elements(works + [w]) <==> x in Elements(works) + {w};
    }
  }

  lemma StartsFrom(s0: Store)
    requires Consistent(s0)
    ensures From(s0, s0, {}, {})
  {
    hide Classify, MailOK, ProjectionsSettled, ProjectionsMatch, ProjectionsMarked, OneKeyEach, GrewBy,
         ReportGrewBy, Owed, Marks, MatchedTo;
    forall r | r in s0.runs
      ensures RunFrom(s0, s0, {}, {}, r)
    {
      assert RunOK(r, s0.runs[r], s0.events[r], s0.reports[r]);
      NothingOwed(s0, r);
      LedgerFromItself(s0.events[r], Undated(s0));
      ReportFromItself(s0.reports[r]);
    }
  }

  lemma NothingOwed(s0: Store, r: string)
    ensures Owed(s0, {}, r) == {}
    ensures r in s0.runs && r in s0.reports ==> Marks(s0, {}, {}, r) == {}
  {
    assert MatchedTo(s0, {}, r) == {};
  }

  lemma LedgerFromItself(ledger: seq<Event>, undated: set<string>)
    ensures GrewBy(ledger, ledger, {}, undated)
  {
    assert ledger[|ledger|..] == [] && Bare([], undated) == [];
  }

  lemma ReportFromItself(report: Report)
    requires UniqueIDs(report.assertions)
    ensures ReportGrewBy(report, report, report.run, {})
  {
    assert report.assertions[|report.assertions|..] == [];
  }

  lemma WorkConsistent(s: Store, work: Work, now: int, s': Store)
    requires Consistent(s) && WorkStep(s, work, now, s')
    ensures Consistent(s')
  {
    hide Consistent, Evolves, Aligned, ProcessStripeWebhook, RecordVerification;
    match work {
      case Webhook(e) => ProcessConsistent(s, e, now);
      case RunVerdict(r) => if r in s.runs { RecordConsistent(s, r, VerdictOf(s.runs[r])); }
    }
  }

  lemma {:induction false} WorksAmountTo(states: seq<Store>, works: seq<Work>, times: seq<int>, n: nat)
    requires Worked(states, works, times) && n <= |works|
    requires Consistent(states[0])
    ensures Consistent(states[n]) && From(states[0], states[n], EventsIn(works[..n]), RunsIn(works[..n]))
  {
    hide Consistent, From, EventsIn, RunsIn, ProcessStripeWebhook, RecordVerification;
    if n == 0 {
      StartsFrom(states[0]);
      NoWorks(works);
    } else {
      WorksAmountTo(states, works, times, n - 1);
      var s0, s, w := states[0], states[n - 1], works[n - 1];
      var es, vs := EventsIn(works[..n - 1]), RunsIn(works[..n - 1]);
      assert WorkAt(states, works, times, n - 1);
      WorkConsistent(s, w, times[n - 1], states[n]);
      WorksAppend(works[..n - 1], w);
      assert works[..n] == works[..n - 1] + [w];
      match w {
        case Webhook(e) => WebhookFrom(s0, s, es, vs, e, times[n - 1]);
          assert vs + {} == vs;
        case RunVerdict(r) => VerdictFrom(s0, s, es, vs, r);
          assert es + {} == es;
      }
    }
  }

  lemma WorkLeavesUntouched(s: Store, work: Work, now: int, s': Store)
    requires WorkStep(s, work, now, s')
    ensures Untouched(s, s')
  {
    hide Classify, AddOnce, Refer;
  }

  lemma {:induction false} WorksLeaveUntouched(states: seq<Store>, works: seq<Work>, times: seq<int>, n: nat)
    requires Worked(states, works, times) && n <= |works|
    ensures Untouched(states[0], states[n])
  {
    hide WorkStep;
    if n > 0 {
      WorksLeaveUntouched(states, works, times, n - 1);
      assert WorkAt(states, works, times, n - 1);
      WorkLeavesUntouched(states[n - 1], works[n - 1], times[n - 1], states[n]);
    }
  }

  lemma NoWorks(works: seq<Work>)
    ensures EventsIn(works[..0]) == {} && RunsIn(works[..0]) == {}
  {
  }

  // ----- the theorem -----

  /** Two reports that differ at most in the order of their assertions. */
  predicate SameReport(a: Report, b: Report) {
    && multiset(a.assertions) == multiset(b.assertions)
    && a.(assertions := []) == b.(assertions := [])
  }

  /** Two stores after the works: results and runs are equal, and everything that works leave
      alone; reports agree up to assertion order; ledgers have the same beginning, and what
      was appended agrees up to order, sequence number and, for receipts without a creation time,
    the time of processing. */
  ghost predicate SameOutcome(s0: Store, a: Store, b: Store) {
    && Rest(a) == Rest(b) && a.runs == b.runs && a.webhookResults == b.webhookResults
    && a.reports.Keys == b.reports.Keys && a.events.Keys == b.events.Keys
    && forall r :: r in a.runs ==> SameRun(s0, a, b, r)
  }

  ghost predicate SameRun(s0: Store, a: Store, b: Store, r: string) {
    && r in s0.events && r in a.events && r in b.events && r in a.reports && r in b.reports
    && SameReport(a.reports[r], b.reports[r])
    && s0.events[r] <= a.events[r] && s0.events[r] <= b.events[r]
    && multiset(Bare(a.events[r][|s0.events[r]|..], Undated(s0)))
       == multiset(Bare(b.events[r][|s0.events[r]|..], Undated(s0)))
  }

  lemma {:induction false} PassedCountAppend(s: seq<Assertion>, t: seq<Assertion>)
    ensures PassedCount(s + t) == PassedCount(s) + PassedCount(t)
  {
    if t == [] {
      assert s + t == s;
    } else {
      var k := |t| - 1;
      PassedCountAppend(s, t[..k]);
      assert (s + t)[..|s + t| - 1] == s + t[..k];
    }
  }

  lemma RemoveAt(t: seq<Assertion>, i: nat)
    requires i < |t|
    ensures var u := t[..i] + t[i + 1..];
      && multiset(t) == multiset(u) + multiset{t[i]}
      && PassedCount(t) == PassedCount(u) + if t[i].passed then 1 else 0
  {
    var a, x, b := t[..i], t[i], t[i + 1..];
    assert t == a + ([x] + b);
    PassedCountAppend(a, [x] + b);
    PassedCountAppend([x], b);
    PassedCountAppend(a, b);
    assert [x][..0] == [];
  }

  /** The number of passed assertions does not depend on their order. */
  lemma {:induction false} PassedCountOfBag(s: seq<Assertion>, t: seq<Assertion>)
    requires multiset(s) == multiset(t)
    ensures PassedCount(s) == PassedCount(t)
  {
    if s == [] {
      assert |multiset(t)| == 0;
    } else {
      var k := |s| - 1;
      assert s[k] in multiset(s);
      var i :| 0 <= i < |t| && t[i] == s[k];
      RemoveAt(s, k);
      RemoveAt(t, i);
      assert s[..k] + s[k + 1..] == s[..k];
      var u := t[..i] + t[i + 1..];
      assert multiset(s[..k]) == multiset(s) - multiset{s[k]} && multiset(u) == multiset(t) - multiset{s[k]};
      PassedCountOfBag(s[..k], u);
    }
  }

  lemma SameGrownReport(base: Report, a: Report, b: Report, run: Run, marks: set<Assertion>)
    requires ReportGrewBy(base, a, run, marks) && ReportGrewBy(base, b, run, marks)
    ensures SameReport(a, b)
  {
    var k := |base.assertions|;
    var x, y := a.assertions[k..], b.assertions[k..];
    SameElements(x, y);
    assert a.assertions == base.assertions + x && b.assertions == base.assertions + y;
    assert multiset(a.assertions) == multiset(b.assertions);
    PassedCountOfBag(a.assertions, b.assertions);
  }

  lemma SameGrownRun(s0: Store, a: Store, b: Store, es: set<string>, vs: set<string>, r: string)
    requires RunFrom(s0, a, es, vs, r) && RunFrom(s0, b, es, vs, r)
    ensures SameRun(s0, a, b, r) && a.runs[r] == b.runs[r]
  {
    hide Owed, Marks, ReportGrewBy, SameReport;
    var x, y := a.events[r][|s0.events[r]|..], b.events[r][|s0.events[r]|..];
    SameElements(Bare(x, Undated(s0)), Bare(y, Undated(s0)));
    assert |Bare(x, Undated(s0))| == |Bare(y, Undated(s0))|;
    SameGrownReport(s0.reports[r], a.reports[r], b.reports[r], a.runs[r], Marks(s0, es, vs, r));
  }

  lemma SameFrom(s0: Store, a: Store, b: Store, es: set<string>, vs: set<string>)
    requires From(s0, a, es, vs) && From(s0, b, es, vs) && Aligned(a) && Aligned(b)
    requires s0.webhookResults.Keys <= s0.webhooks.Keys
    ensures SameOutcome(s0, a, b)
  {
    hide SameRun, RunFrom, ResultFor;
    forall r | r in s0.runs
      ensures SameRun(s0, a, b, r) && r in a.runs && r in b.runs && a.runs[r] == b.runs[r]
    {
      SameGrownRun(s0, a, b, es, vs, r);
      assert RunFrom(s0, a, es, vs, r) && RunFrom(s0, b, es, vs, r);
    }
    assert a.webhookResults.Keys == b.webhookResults.Keys;
  }

  lemma ResultKeys(s: Store)
    requires Consistent(s)
    ensures s.webhookResults.Keys <= s.webhooks.Keys && Aligned(s)
  {
    hide MailOK, RunsOK, ProjectionsSettled, ProjectionsMatch, ProjectionsMarked, OneKeyEach;
  }

  /** Delivery order does not matter: any two sequences over the same receipts and verdicts,
      in any order, with any repeats, at any times, have the same outcome. */
  lemma OrderDoesNotMatter(states1: seq<Store>, works1: seq<Work>, times1: seq<int>,
                           states2: seq<Store>, works2: seq<Work>, times2: seq<int>)
    requires Worked(states1, works1, times1) && Worked(states2, works2, times2)
    requires states1[0] == states2[0] && Consistent(states1[0])
    requires EventsIn(works1) == EventsIn(works2) && RunsIn(works1) == RunsIn(works2)
    ensures SameOutcome(states1[0], states1[|works1|], states2[|works2|])
    ensures Untouched(states1[0], states1[|works1|]) && Untouched(states2[0], states2[|works2|])
  {
    hide Untouched, Consistent, From, WorkAt, SameOutcome, EventsIn, RunsIn, ByEvent, Aligned;
    WorksAmountTo(states1, works1, times1, |works1|);
    WorksAmountTo(states2, works2, times2, |works2|);
    WorksLeaveUntouched(states1, works1, times1, |works1|);
    WorksLeaveUntouched(states2, works2, times2, |works2|);
    assert works1[..|works1|] == works1 && works2[..|works2|] == works2;
    ResultKeys(states1[0]);
    ResultKeys(states1[|works1|]);
    ResultKeys(states2[|works2|]);
    SameFrom(states1[0], states1[|works1|], states2[|works2|], EventsIn(works1), RunsIn(works1));
  }

  /** Where every matched receipt has a creation time, the times agree as well. */
  lemma DatedEventsKeepTheirTimes(states1: seq<Store>, works1: seq<Work>, times1: seq<int>,
                                  states2: seq<Store>, works2: seq<Work>, times2: seq<int>, r: string)
    requires Worked(states1, works1, times1) && Worked(states2, works2, times2)
    requires states1[0] == states2[0] && Consistent(states1[0]) && r in states1[0].runs
    requires EventsIn(works1) == EventsIn(works2) && RunsIn(works1) == RunsIn(works2)
    requires MatchedTo(states1[0], EventsIn(works1), r) !! Undated(states1[0])
    ensures var s0, a, b := states1[0], states1[|works1|], states2[|works2|];
      && r in s0.events && r in a.events && r in b.events
      && s0.events[r] <= a.events[r] && s0.events[r] <= b.events[r]
      && multiset(Bare(a.events[r][|s0.events[r]|..], {})) == multiset(Bare(b.events[r][|s0.events[r]|..], {}))
  {
    hide Consistent, WorkAt, EventsIn, RunsIn, MatchedTo, ReportGrewBy, ResultsFrom, Rest, Undated, Marks, Owed, Bare;
    WorksAmountTo(states1, works1, times1, |works1|);
    WorksAmountTo(states2, works2, times2, |works2|);
    assert works1[..|works1|] == works1 && works2[..|works2|] == works2;
    var s0, a, b, es, vs := states1[0], states1[|works1|], states2[|works2|], EventsIn(works1), RunsIn(works1);
    assert RunFrom(s0, a, es, vs, r) && RunFrom(s0, b, es, vs, r);
    var x, y := a.events[r][|s0.events[r]|..], b.events[r][|s0.events[r]|..];
    DatedBare(s0, es, r, x);
    DatedBare(s0, es, r, y);
    SameElements(Bare(x, {}), Bare(y, {}));
  }

  /** What is owed for dated receipts keeps its time. */
  lemma DatedBare(s0: Store, es: set<string>, r: string, appended: seq<Event>)
    requires ByEvent(s0.webhooks) && MatchedTo(s0, es, r) !! Undated(s0)
    requires Elements(Bare(appended, Undated(s0))) == Owed(s0, es, r)
    ensures Bare(appended, Undated(s0)) == Bare(appended, {})
  {
    hide MatchedTo, Undated;
    InMatched(s0, es, r);
    var bare := Bare(appended, Undated(s0));
    forall i | 0 <= i < |appended|
      ensures bare[i] == BareEvent(appended[i], {})
    {
      assert bare[i] in Elements(bare);
      var e :| e in MatchedTo(s0, es, r) && bare[i] == EventFor(s0.webhooks[e], r);
      assert appended[i].evidence == bare[i].evidence && bare[i].evidence.stripeEventID == e;
      assert e !in Undated(s0);
    }
  }

  lemma ShortReports(base: Report, a: Report, b: Report, run: Run, marks: set<Assertion>)
    requires ReportGrewBy(base, a, run, marks) && ReportGrewBy(base, b, run, marks)
    requires exists m :: marks <= {m}
    ensures a == b
  {
    var k := |base.assertions|;
    SameGrownReport(base, a, b, run, marks);
    var m :| marks <= {m};
    TailOf(a.assertions, k, m);
    TailOf(b.assertions, k, m);
    assert a.assertions == base.assertions + a.assertions[k..] && b.assertions == base.assertions + b.assertions[k..];
    assert |multiset(a.assertions)| == |multiset(b.assertions)|;
  }

  lemma TailOf(assertions: seq<Assertion>, k: nat, m: Assertion)
    requires k <= |assertions| && UniqueIDs(assertions) && Elements(assertions[k..]) <= {m}
    ensures assertions[k..] == if k == |assertions| then [] else [m]
  {
    forall i | k <= i < |assertions|
      ensures assertions[i] == m
    {
      assert assertions[k..][i - k] in Elements(assertions[k..]);
    }
    assert |assertions| > k + 1 ==> assertions[k].id == assertions[k + 1].id;
  }

  /** With webhooks alone the reports are equal outright. */
  lemma WebhookOrderLeavesReportsEqual(states1: seq<Store>, works1: seq<Work>, times1: seq<int>,
                                       states2: seq<Store>, works2: seq<Work>, times2: seq<int>)
    requires Worked(states1, works1, times1) && Worked(states2, works2, times2)
    requires states1[0] == states2[0] && Consistent(states1[0])
    requires EventsIn(works1) == EventsIn(works2) && RunsIn(works1) == RunsIn(works2) == {}
    ensures states1[|works1|].reports == states2[|works2|].reports
  {
    hide Consistent, WorkAt, EventsIn, RunsIn, RunFrom, ResultsFrom, Rest, Aligned;
    WorksAmountTo(states1, works1, times1, |works1|);
    WorksAmountTo(states2, works2, times2, |works2|);
    assert works1[..|works1|] == works1 && works2[..|works2|] == works2;
    var s0, a, b, es := states1[0], states1[|works1|], states2[|works2|], EventsIn(works1);
    ReportKeys(a);
    ReportKeys(b);
    forall r | r in s0.runs
      ensures r in a.reports && r in b.reports && a.reports[r] == b.reports[r]
    {
      EqualReports(s0, a, b, es, r);
    }
  }

  lemma ReportKeys(s: Store)
    requires Consistent(s)
    ensures s.reports.Keys == s.runs.Keys
  {
    hide BooksOK, MailOK, NamesOK, OneKeyEach;
  }

  lemma EqualReports(s0: Store, a: Store, b: Store, es: set<string>, r: string)
    requires RunFrom(s0, a, es, {}, r) && RunFrom(s0, b, es, {}, r)
    ensures a.reports[r] == b.reports[r]
  {
    hide MatchedTo, GrewBy, ReportGrewBy, Owed, SameRun;
    SameGrownRun(s0, a, b, es, {}, r);
    assert Marks(s0, es, {}, r) <= {MarkOf(s0.runs[r])};
    ShortReports(s0.reports[r], a.reports[r], b.reports[r], a.runs[r], Marks(s0, es, {}, r));
  }

  // ----- what a worker records -----

  /** The recorded verdict depends on the run alone: executing the relay for a run yields the
      same assertion on every effect map, if and only if a tampering shows in the MAC. */
  lemma RecordedVerdict(effects: map<string, int>, signer: Signer, sha: string -> Hash, run: Run)
    requires Supported(run.fault)
    ensures var envelope := Envelope(run, sha);
      var r := DeliverAll(effects, signer, Deliveries(signer, envelope, run.fault), Start(run.fault)).1;
      VerificationAssertion(r, run.fault) == VerdictOf(run) <==> (run.fault == Tamper ==> TamperShows(signer, envelope))
  {
    hide Deliveries, Envelope, TamperShows, Passes;
    VerdictStable(effects, signer, Envelope(run, sha), run.fault);
  }
}
