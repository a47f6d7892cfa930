/** The state of the in-memory repository as one value, and each locked repository
    operation as a function on it. */
module StoreSpec {
  import opened Options
  import opened Hex
  import opened Identifiers
  import opened Domain
  import opened Outbox

  datatype Record = Record(requestHash: Hash, runID: string)

  /** Public demo runs and tenant runs keep separate idempotency records. */
  datatype Scope = Public | Project(id: string)

  datatype Store = Store(
    runs: map<string, Run>, events: map<string, seq<Event>>, reports: map<string, Report>,
    idempotency: map<Hash, Record>, tenantIdempotency: map<string, Record>,
    projectByRun: map<string, string>, correlationByRun: map<string, string>,
    webhooks: map<string, WebhookReceipt>, webhookResults: map<string, WebhookResult>,
    nextRun: nat, queue: Queue, merchantEffects: map<string, int>)

  const EMPTY := Store(map[], map[], map[], map[], map[], map[], map[], map[], map[], 4, Queue(map[], 1), map[])

  /** Go's map read: a missing key gives the zero value. */
  function Get(m: map<string, string>, key: string): string {
    if key in m then m[key] else ""
  }

  // ----- idempotent creation -----

  function TenantKey(projectID: string, keyHash: Hash): string {
    projectID + ":" + EncodeToString(keyHash)
  }

  /** The text that stands for a project and a key hash stands for no other pair. */
  lemma TenantKeyInjective(p: string, a: Hash, q: string, b: Hash)
    ensures TenantKey(p, a) == TenantKey(q, b) <==> p == q && a == b
  {
    if TenantKey(p, a) == TenantKey(q, b) {
      var k, x, y := TenantKey(p, a), EncodeToString(a), EncodeToString(b);
      assert k == p + ":" + x == q + ":" + y;
      assert x == k[|k| - 64..] && y == k[|k| - 64..];
      assert p == k[..|k| - 65] && q == k[..|k| - 65];
      EncodeInjective(a, b);
    }
  }

  function Lookup(s: Store, scope: Scope, keyHash: Hash): Option<Record> {
    match scope
    case Public => if keyHash in s.idempotency then Some(s.idempotency[keyHash]) else None
    case Project(id) =>
      var key := TenantKey(id, keyHash);
      if key in s.tenantIdempotency then Some(s.tenantIdempotency[key]) else None
  }

  /** Idempotency records name stored runs. */
  predicate Refer<K>(records: map<K, Record>, runIDs: set<string>) {
    forall k :: k in records ==> records[k].runID in runIDs
  }

  /** Runs, ledgers and reports are stored together, and records name stored runs. */
  predicate Aligned(s: Store) {
    && s.events.Keys == s.runs.Keys && s.reports.Keys == s.runs.Keys
    && Refer(s.idempotency, s.runs.Keys) && Refer(s.tenantIdempotency, s.runs.Keys)
  }

  datatype Creation = Conflict | Missing | Granted(run: Run, replayed: bool)

  function Replay(s: Store, scope: Scope, keyHash: Hash, requestHash: Hash): Creation
    requires Aligned(s)
  {
    match Lookup(s, scope, keyHash)
    case None => Missing
    case Some(previous) => if previous.requestHash != requestHash then Conflict else Granted(s.runs[previous.runID], true)
  }

  function NextRunID(s: Store): (Store, string) {
    (s.(nextRun := s.nextRun + 1), RunID(s.nextRun))
  }

  function RunTopic(topic: Topic): Topic {
    if topic.NoTopic? then RunPersisted else topic
  }

  function RunPayload(b: RunBundle): Payload {
    Fields(b.run.id, b.verificationFault, "", "")
  }

  function Remember(s: Store, scope: Scope, keyHash: Hash, record: Record): Store {
    match scope
    case Public => s.(idempotency := s.idempotency[keyHash := record])
    case Project(id) =>
      s.(tenantIdempotency := s.tenantIdempotency[TenantKey(id, keyHash) := record],
         projectByRun := s.projectByRun[record.runID := id])
  }

  /** The run, its ledger, its report, its idempotency record and its outbox message, at once. */
  function Insert(s: Store, scope: Scope, keyHash: Hash, requestHash: Hash, b: RunBundle, now: int): Store {
    var id := b.run.id;
    Remember(s, scope, keyHash, Record(requestHash, id)).(
      runs := s.runs[id := b.run], events := s.events[id := b.events], reports := s.reports[id := b.report],
      correlationByRun := s.correlationByRun[id := b.correlationID],
      queue := Enqueued(s.queue, RunTopic(b.topic), id, RunPayload(b), now))
  }

  function CreateRun(s: Store, scope: Scope, keyHash: Hash, requestHash: Hash, b: RunBundle, now: int): (Store, Creation)
    requires Aligned(s)
  {
    match Replay(s, scope, keyHash, requestHash)
    case Missing => (Insert(s, scope, keyHash, requestHash, b, now), Granted(b.run, false))
    case answer => (s, answer)
  }

  lemma InsertAligned(s: Store, scope: Scope, keyHash: Hash, requestHash: Hash, b: RunBundle, now: int)
    requires Aligned(s)
    ensures Aligned(Insert(s, scope, keyHash, requestHash, b, now))
  {
    var s' := Insert(s, scope, keyHash, requestHash, b, now);
    assert s'.runs.Keys == s.runs.Keys + {b.run.id};
    assert s'.events.Keys == s.runs.Keys + {b.run.id};
    assert s'.reports.Keys == s.runs.Keys + {b.run.id};
  }

  // ----- webhooks -----

  datatype Seen = SeenConflict | SeenDuplicate | SeenNew

  function WebhookPayload(r: WebhookReceipt): Payload {
    Fields("", Unset, r.eventID, r.eventType)
  }

  function MarkWebhookSeen(s: Store, r: WebhookReceipt, now: int): (Store, Seen) {
    if r.eventID in s.webhooks then
      var previous := s.webhooks[r.eventID];
      if previous.eventType != r.eventType || previous.endpointTokenSHA != r.endpointTokenSHA
         || previous.bodySHA != r.bodySHA
      then (s, SeenConflict) else (s, SeenDuplicate)
    else
      (s.(webhooks := s.webhooks[r.eventID := r],
          queue := Enqueued(s.queue, WebhookReceived, r.eventID, WebhookPayload(r), now)), SeenNew)
  }

  predicate IsSupportedStripeWebhookType(eventType: string) {
    eventType in {
      "payment_intent.created", "payment_intent.processing", "payment_intent.succeeded",
      "payment_intent.payment_failed", "payment_intent.canceled"}
  }

  /** Five stages of a payment intent. */
  lemma SupportedTypesAre(eventType: string)
    ensures IsSupportedStripeWebhookType(eventType) <==>
      exists stage :: stage in {"created", "processing", "succeeded", "payment_failed", "canceled"}
                      && eventType == "payment_intent." + stage
  {
    assert "payment_intent." + "created" == "payment_intent.created";
    assert "payment_intent." + "processing" == "payment_intent.processing";
    assert "payment_intent." + "succeeded" == "payment_intent.succeeded";
    assert "payment_intent." + "payment_failed" == "payment_intent.payment_failed";
    assert "payment_intent." + "canceled" == "payment_intent.canceled";
  }

  function ObjectMatches(s: Store, objectID: string): set<string> {
    set id | id in s.runs && s.runs[id].stripeObjectID == objectID
  }

  function CorrelatedMatches(s: Store, objectID: string, correlationID: string): set<string> {
    set id | id in ObjectMatches(s, objectID) && Get(s.correlationByRun, id) == correlationID
  }

  datatype Verdict = Settle(status: WebhookStatus, code: ProcessingCode) | Match(runID: string)

  /** Where a receipt belongs. */
  ghost function Classify(s: Store, r: WebhookReceipt): (v: Verdict)
    ensures v.Match? ==> v.runID in s.runs && s.runs[v.runID].stripeObjectID == r.stripeObjectID
                         && Get(s.correlationByRun, v.runID) == r.correlationID
    ensures v.Settle? ==> v.status in {Ignored, Unmatched}
  {
    if !IsSupportedStripeWebhookType(r.eventType) then Settle(Ignored, UnsupportedEventType)
    else if r.stripeObjectID == "" then Settle(Unmatched, MissingStripeObjectID)
    else if r.correlationID == "" then Settle(Unmatched, MissingCorrelationID)
    else
      var correlated := CorrelatedMatches(s, r.stripeObjectID, r.correlationID);
      if ObjectMatches(s, r.stripeObjectID) == {} then Settle(Unmatched, RunNotFound)
      else if correlated == {} then Settle(Unmatched, CorrelationMismatch)
      else if |correlated| > 1 then Settle(Unmatched, AmbiguousRunMatch)
      else var id :| id in correlated; Match(id)
  }

  predicate Carries(s: Store, id: string, r: WebhookReceipt) {
    id in s.runs && s.runs[id].stripeObjectID == r.stripeObjectID && Get(s.correlationByRun, id) == r.correlationID
  }

  /** A receipt is matched to a run exactly when its type is supported, it names an object and
      a correlation, and this run, and no other, carries both. */
  lemma MatchedToTheOnlyCarrier(s: Store, r: WebhookReceipt, id: string)
    ensures Classify(s, r) == Match(id) <==>
      && IsSupportedStripeWebhookType(r.eventType) && r.stripeObjectID != "" && r.correlationID != ""
      && Carries(s, id, r) && forall other :: Carries(s, other, r) ==> other == id
  {
    hide IsSupportedStripeWebhookType;
    var c := CorrelatedMatches(s, r.stripeObjectID, r.correlationID);
    forall x
      ensures x in c <==> Carries(s, x, r)
    {
    }
    if id in c {
      assert |c - {id}| == |c| - 1;
      assert id in ObjectMatches(s, r.stripeObjectID);
      if |c| == 1 {
        assert c - {id} == {};
      } else {
        var other :| other in c - {id};
        assert Carries(s, other, r);
      }
    }
  }

  /** Some run is about the object. */
  ghost predicate ObjectKnown(s: Store, objectID: string) {
    exists id :: id in s.runs && s.runs[id].stripeObjectID == objectID
  }

  /** Two different runs carry both object and correlation. */
  ghost predicate TwoCarry(s: Store, r: WebhookReceipt) {
    exists a, b :: a != b && Carries(s, a, r) && Carries(s, b, r)
  }

  /** And it is settled without a run exactly for the first of these reasons that applies. */
  lemma SettledBecause(s: Store, r: WebhookReceipt)
    ensures var v, typed := Classify(s, r), IsSupportedStripeWebhookType(r.eventType);
      && (v == Settle(Ignored, UnsupportedEventType) <==> !typed)
      && (v == Settle(Unmatched, MissingStripeObjectID) <==> typed && r.stripeObjectID == "")
      && (v == Settle(Unmatched, MissingCorrelationID) <==> typed && r.stripeObjectID != "" && r.correlationID == "")
      && (var named := typed && r.stripeObjectID != "" && r.correlationID != "";
          && (v == Settle(Unmatched, RunNotFound) <==> named && !ObjectKnown(s, r.stripeObjectID))
          && (v == Settle(Unmatched, CorrelationMismatch) <==>
                named && ObjectKnown(s, r.stripeObjectID) && forall id :: !Carries(s, id, r))
          && (v == Settle(Unmatched, AmbiguousRunMatch) <==> named && TwoCarry(s, r)))
  {
    hide IsSupportedStripeWebhookType;
    var objects, c := ObjectMatches(s, r.stripeObjectID), CorrelatedMatches(s, r.stripeObjectID, r.correlationID);
    assert ObjectKnown(s, r.stripeObjectID) <==> objects != {} by {
      if ObjectKnown(s, r.stripeObjectID) {
        var id :| id in s.runs && s.runs[id].stripeObjectID == r.stripeObjectID;
        assert id in objects;
      }
    }
    forall x
      ensures x in c <==> Carries(s, x, r)
    {
    }
    if |c| == 1 {
      var id :| id in c;
      assert |c - {id}| == |c| - 1;
      assert forall x :: x in c ==> x == id || x in c - {id};
    } else if c != {} {
      var a :| a in c;
      assert |c - {a}| == |c| - 1;
      var b :| b in c - {a};
      assert Carries(s, a, r) && Carries(s, b, r);
    }
  }

  function NextSequence(events: seq<Event>): (n: int)
    ensures n >= 1 && forall i :: 0 <= i < |events| ==> events[i].sequence < n
  {
    if events == [] then 1
    else
      var n := NextSequence(events[..|events| - 1]);
      var last := events[|events| - 1].sequence;
      if last >= n then last + 1 else n
  }

  function BuildWebhookRunEvent(r: WebhookReceipt, runID: string, sequence: int, now: int): Event {
    Event(runID, sequence, if r.stripeCreatedAt.Some? then r.stripeCreatedAt.value else now, r.eventType,
          Healthy, false, StripeWebhook(r.eventID, r.stripeObjectID, r.objectStatus, r.correlationID))
  }

  function WebhookCorrelationAssertion(r: WebhookReceipt): Assertion {
    Assertion(WEBHOOK_ASSERTION, true, "stripe_object:" + r.stripeObjectID)
  }

  function Append(report: Report, a: Assertion): Report {
    var assertions := report.assertions + [a];
    report.(assertions := assertions, summary := Summary(true, PassedCount(assertions), |assertions|))
  }

  /** Add an assertion unless one with its identifier is there already. */
  function AddOnce(report: Report, a: Assertion): Report {
    if HasAssertion(report.assertions, a.id) then report else Append(report, a)
  }

  /** Project a matched receipt into its run: one more event, a new count, and the
      correlation assertion. */
  function ProjectWebhook(s: Store, r: WebhookReceipt, runID: string, now: int): Store
    requires runID in s.runs && runID in s.events && runID in s.reports
  {
    var events := s.events[runID] + [BuildWebhookRunEvent(r, runID, NextSequence(s.events[runID]), now)];
    var run := s.runs[runID].(eventCount := |events|);
    s.(events := s.events[runID := events], runs := s.runs[runID := run],
       reports := s.reports[runID := AddOnce(s.reports[runID].(run := run), WebhookCorrelationAssertion(r))])
  }

  lemma ProjectAligned(s: Store, r: WebhookReceipt, runID: string, now: int)
    requires Aligned(s) && runID in s.runs
    ensures Aligned(ProjectWebhook(s, r, runID, now))
    ensures ProjectWebhook(s, r, runID, now).runs.Keys == s.runs.Keys
  {
    var s' := ProjectWebhook(s, r, runID, now);
    assert s'.runs.Keys == s.runs.Keys && s'.events.Keys == s.runs.Keys && s'.reports.Keys == s.runs.Keys;
  }

  ghost function ResultOf(s: Store, r: WebhookReceipt, v: Verdict): WebhookResult {
    match v
    case Settle(status, code) => WebhookResult(r.eventID, r.eventType, status, "", "", code, false)
    case Match(runID) => WebhookResult(r.eventID, r.eventType, Matched, runID, Get(s.projectByRun, runID), NoCode, false)
  }

  ghost function ProcessStripeWebhook(s: Store, eventID: string, now: int): (Store, Option<WebhookResult>)
    requires Aligned(s)
  {
    if eventID in s.webhookResults then (s, Some(s.webhookResults[eventID].(alreadyProcessed := true)))
    else if eventID !in s.webhooks then (s, None)
    else
      var r := s.webhooks[eventID];
      var v := Classify(s, r);
      var projected := if v.Match? then ProjectWebhook(s, r, v.runID, now) else s;
      var result := ResultOf(s, r, v);
      (projected.(webhookResults := s.webhookResults[eventID := result]), Some(result))
  }

  // ----- verification -----

  function RecordVerification(s: Store, runID: string, a: Assertion): (Store, bool) {
    if runID !in s.reports then (s, false)
    else (s.(reports := s.reports[runID := AddOnce(s.reports[runID], a)]), true)
  }

  /** Answers whether the effect was there already. */
  function ApplyEffect(effects: map<string, int>, effectID: string, sequence: int): (map<string, int>, bool) {
    if effectID !in effects then (effects[effectID := sequence], false)
    else if sequence > effects[effectID] then (effects[effectID := sequence], true)
    else (effects, true)
  }
}
