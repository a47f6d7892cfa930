/** What every repository operation keeps: ledgers and reports agree with their runs, each
    Stripe event is projected once, each run and each receipt has one outbox message, and
    stored facts are only added to.

    Every part of the invariant is a predicate on the maps it speaks about, so an
    operation that leaves those maps alone keeps it. */
module Consistency {
  import opened Options
  import opened Hex
  import opened Identifiers
  import opened Domain
  import opened Outbox
  import opened StoreSpec

  predicate SupportedFault(f: Fault) {
    f in {NoFault, Duplicate, Reorder, Timeout, Tamper}
  }

  // ----- runs, ledgers, reports -----

  type Runs = map<string, Run>
  type Ledgers = map<string, seq<Event>>
  type Reports = map<string, Report>
  type Results = map<string, WebhookResult>
  type Receipts = map<string, WebhookReceipt>

  /** One run with its ledger and its report. */
  predicate RunOK(r: string, run: Run, events: seq<Event>, report: Report) {
    && run.id == r && IsTerminalRun(run) && SupportedFault(run.fault)
    && Ledger(events, r) && |events| > 0
    && run.eventCount == |events|
    && report.run == run
    && UniqueIDs(report.assertions) && SummaryAgrees(report)
  }

  ghost predicate RunsOK(runs: Runs, ledgers: Ledgers, reports: Reports) {
    && ledgers.Keys == runs.Keys && reports.Keys == runs.Keys
    && forall r :: r in runs ==> RunOK(r, runs[r], ledgers[r], reports[r])
  }

  lemma StoreRun(runs: Runs, ledgers: Ledgers, reports: Reports, r: string, run: Run, events: seq<Event>, report: Report)
    requires RunsOK(runs, ledgers, reports) && RunOK(r, run, events, report)
    ensures RunsOK(runs[r := run], ledgers[r := events], reports[r := report])
  {
    assert runs[r := run].Keys == runs.Keys + {r} == ledgers[r := events].Keys == reports[r := report].Keys;
  }

  lemma StoreReport(runs: Runs, ledgers: Ledgers, reports: Reports, r: string, report: Report)
    requires RunsOK(runs, ledgers, reports) && r in runs && RunOK(r, runs[r], ledgers[r], report)
    ensures RunsOK(runs, ledgers, reports[r := report])
  {
    assert reports[r := report].Keys == reports.Keys;
  }

  // ----- projected Stripe events -----

  /** Entry i of run r's ledger is the projection of Stripe event e. */
  predicate ProjectedAt(ledgers: Ledgers, r: string, i: nat, e: string) {
    r in ledgers && i < |ledgers[r]| && ledgers[r][i].evidence.StripeWebhook?
    && ledgers[r][i].evidence.stripeEventID == e
  }

  /** An event is projected into the one run that it was matched to, and once. */
  ghost predicate ProjectionsSettled(ledgers: Ledgers, results: Results) {
    && (forall r, i: nat, e :: ProjectedAt(ledgers, r, i, e) ==>
          e in results && results[e].status == Matched && results[e].runID == r)
    && (forall r, i: nat, j: nat, e :: ProjectedAt(ledgers, r, i, e) && ProjectedAt(ledgers, r, j, e) ==> i == j)
  }

  /** It carries the object and the correlation of that run. */
  ghost predicate ProjectionsMatch(ledgers: Ledgers, runs: Runs, correlations: map<string, string>) {
    forall r, i: nat, e :: ProjectedAt(ledgers, r, i, e) ==>
      && r in runs && ledgers[r][i].evidence.objectID == runs[r].stripeObjectID
      && ledgers[r][i].evidence.correlationID == Get(correlations, r)
  }

  predicate Marked(reports: Reports, r: string) {
    r in reports && HasAssertion(reports[r].assertions, WEBHOOK_ASSERTION)
  }

  /** The report of a run with a projected event says so. */
  ghost predicate ProjectionsMarked(ledgers: Ledgers, reports: Reports) {
    forall r, i: nat, e :: ProjectedAt(ledgers, r, i, e) ==> Marked(reports, r)
  }

  predicate Terminal(status: WebhookStatus) {
    status in {Matched, Unmatched, Ignored}
  }

  ghost predicate InLedger(ledgers: Ledgers, r: string, e: string) {
    exists i: nat :: ProjectedAt(ledgers, r, i, e)
  }

  /** Every result belongs to a receipt, is terminal, and a match is in the run's ledger. */
  ghost predicate ResultsOK(receipts: set<string>, results: Results, ledgers: Ledgers) {
    forall e :: e in results ==>
      && e in receipts && Terminal(results[e].status)
      && (results[e].status == Matched ==> InLedger(ledgers, results[e].runID, e))
  }

  // ----- what entries and results say -----

  /** A ledger entry says what its receipt says, and dates from when Stripe created the event,
      if Stripe said so. */
  predicate Tells(event: Event, r: WebhookReceipt) {
    && event.evidence.StripeWebhook? && event.status == Healthy && !event.isDuplicate
    && event.eventType == r.eventType && event.evidence.objectStatus == r.objectStatus
    && event.evidence.objectID == r.stripeObjectID && event.evidence.correlationID == r.correlationID
    && (r.stripeCreatedAt.Some? ==> event.at == r.stripeCreatedAt.value)
  }

  ghost predicate ProjectionsTell(ledgers: Ledgers, receipts: Receipts) {
    forall r, i: nat, e :: ProjectedAt(ledgers, r, i, e) ==> e in receipts && Tells(ledgers[r][i], receipts[e])
  }

  /** A result names its event, the run and its project if there is a match, and a code if
      there is none. */
  predicate ResultTells(result: WebhookResult, e: string, r: WebhookReceipt, projects: map<string, string>) {
    && result.eventID == e && result.eventType == r.eventType && !result.alreadyProcessed
    && (result.status == Matched <==> result.code == NoCode)
    && (result.status == Ignored <==> result.code == UnsupportedEventType)
    && (result.status == Ignored <==> !IsSupportedStripeWebhookType(r.eventType))
    && (result.status != Ignored && r.stripeObjectID == "" <==> result.code == MissingStripeObjectID)
    && (result.status != Ignored && r.stripeObjectID != "" && r.correlationID == "" <==> result.code == MissingCorrelationID)
    && (if result.status == Matched then result.projectID == Get(projects, result.runID)
        else result.runID == "" && result.projectID == "")
  }

  ghost predicate ResultsTell(receipts: Receipts, results: Results, projects: map<string, string>) {
    forall e :: e in results ==> e in receipts && ResultTells(results[e], e, receipts[e], projects)
  }

  /** A run belongs to the project whose key names it, or to none. */
  ghost predicate ProjectsOK(runIDs: set<string>, open: map<Hash, Record>, tenant: map<string, Record>,
                             projects: map<string, string>)
  {
    && projects.Keys <= runIDs
    && (forall k :: k in open ==> open[k].runID !in projects)
    && (forall p, h :: TenantKey(p, h) in tenant ==>
          tenant[TenantKey(p, h)].runID in projects && projects[tenant[TenantKey(p, h)].runID] == p)
  }

  // ----- outbox messages -----

  predicate IsRunTopic(topic: Topic) {
    topic == RunPersisted || topic == VerificationQueued
  }

  /** A message is the job of one stored run or of one stored receipt. */
  predicate MessageOK(m: OutboxMessage, runs: Runs, receipts: set<string>) {
    m.payload.Fields? &&
    ((m.payload.runID in runs && IsRunTopic(m.topic) && m.payload.stripeEventID == ""
      && m.payload.verificationFault == runs[m.payload.runID].fault)
     || (m.payload.runID == "" && m.topic == WebhookReceived && m.payload.stripeEventID in receipts
         && m.payload.stripeEventID == m.aggregateID && m.payload.eventType != ""))
  }

  ghost predicate MessagesOK(t: Table, runs: Runs, receipts: set<string>) {
    forall id :: id in t ==> MessageOK(t[id].message, runs, receipts)
  }

  function RunMessages(t: Table, r: string): set<string> {
    set id | id in t && t[id].message.payload.Fields? && t[id].message.payload.runID == r
  }

  function WebhookMessages(t: Table, e: string): set<string> {
    set id | id in t && t[id].message.payload.Fields? && t[id].message.payload.stripeEventID == e
  }

  ghost predicate OnePerRun(t: Table, runIDs: set<string>) {
    forall r :: r in runIDs ==> |RunMessages(t, r)| == 1
  }

  ghost predicate OnePerReceipt(t: Table, receipts: set<string>) {
    forall e :: e in receipts ==> |WebhookMessages(t, e)| == 1
  }

  // ----- keys and names -----

  function KeysOf<K>(records: map<K, Record>, r: string): set<K> {
    set k | k in records && records[k].runID == r
  }

  /** Every run answers to exactly one idempotency key, public or of a project. */
  ghost predicate OneKeyEach(runIDs: set<string>, open: map<Hash, Record>, tenant: map<string, Record>) {
    forall r :: r in runIDs ==> |KeysOf(open, r)| + |KeysOf(tenant, r)| == 1
  }

  ghost function RunNames(next: nat): set<string> {
    set n: nat | 1 <= n < next :: RunID(n)
  }

  ghost predicate NamesOK(runIDs: set<string>, next: nat, receipts: map<string, WebhookReceipt>) {
    && next >= 4 && runIDs <= RunNames(next)
    && "" !in runIDs && "" !in receipts
    && forall e :: e in receipts ==> receipts[e].eventID == e
  }

  /** Runs, ledgers, reports and results tell one story. */
  ghost predicate BooksOK(s: Store) {
    && RunsOK(s.runs, s.events, s.reports)
    && ProjectionsSettled(s.events, s.webhookResults)
    && ProjectionsMatch(s.events, s.runs, s.correlationByRun)
    && ProjectionsMarked(s.events, s.reports)
    && ResultsOK(s.webhooks.Keys, s.webhookResults, s.events)
  }

  /** One message for each run and for each receipt, and no others. */
  ghost predicate MailOK(q: Queue, runs: Runs, receipts: set<string>) {
    && Sound(q) && MessagesOK(q.table, runs, receipts)
    && OnePerRun(q.table, runs.Keys) && OnePerReceipt(q.table, receipts)
  }

  ghost predicate KeysOK(s: Store) {
    && Aligned(s)
    && NamesOK(s.runs.Keys, s.nextRun, s.webhooks)
    && OneKeyEach(s.runs.Keys, s.idempotency, s.tenantIdempotency)
  }

  /** Entries and results say what the receipts and the keys say. */
  ghost predicate FactsOK(s: Store) {
    && ProjectionsTell(s.events, s.webhooks)
    && ResultsTell(s.webhooks, s.webhookResults, s.projectByRun)
    && ProjectsOK(s.runs.Keys, s.idempotency, s.tenantIdempotency, s.projectByRun)
  }

  ghost predicate Consistent(s: Store) {
    KeysOK(s) && BooksOK(s) && MailOK(s.queue, s.runs, s.webhooks.Keys) && FactsOK(s)
  }

  lemma EmptyConsistent()
    ensures Consistent(EMPTY)
  {
    assert Outbox.Names(1) == {};
  }

  // ----- facts only grow -----

  function Frozen(run: Run): Run {
    run.(eventCount := 0)
  }

  ghost predicate RunsGrow(runs: Runs, runs': Runs) {
    forall r :: r in runs ==> r in runs' && Frozen(runs'[r]) == Frozen(runs[r])
  }

  ghost predicate LedgersGrow(ledgers: Ledgers, ledgers': Ledgers) {
    forall r :: r in ledgers ==> r in ledgers' && ledgers[r] <= ledgers'[r]
  }

  ghost predicate ReportsGrow(reports: Reports, reports': Reports) {
    forall r :: r in reports ==> r in reports' && reports[r].assertions <= reports'[r].assertions
  }

  ghost predicate Stays<K(!new), V(!new)>(m: map<K, V>, m': map<K, V>) {
    forall k :: k in m ==> k in m' && m'[k] == m[k]
  }

  ghost predicate CorrelationsStay(runIDs: set<string>, c: map<string, string>, c': map<string, string>) {
    forall r :: r in runIDs ==> Get(c', r) == Get(c, r)
  }

  ghost predicate ProjectsStay(runIDs: set<string>, p: map<string, string>, p': map<string, string>) {
    forall r :: r in runIDs ==> Get(p', r) == Get(p, r)
  }

  ghost predicate EffectsGrow(effects: map<string, int>, effects': map<string, int>) {
    forall x :: x in effects ==> x in effects' && effects[x] <= effects'[x]
  }

  function Job(m: OutboxMessage): OutboxMessage {
    m.(attempts := 0, lockedBy := "", lockedAt := 0)
  }

  ghost predicate MessagesStay(t: Table, t': Table) {
    forall id :: id in t ==>
      && id in t' && Job(t'[id].message) == Job(t[id].message)
      && (Settled(t[id]) ==> t'[id] == t[id])
  }

  /** A run is never changed but for its event count, and stays in its project; ledgers and
      reports are only appended to; receipts, results and idempotency records stay; settled messages stay settled. */
  ghost predicate Evolves(s: Store, s': Store) {
    && RunsGrow(s.runs, s'.runs) && LedgersGrow(s.events, s'.events) && ReportsGrow(s.reports, s'.reports)
    && CorrelationsStay(s.runs.Keys, s.correlationByRun, s'.correlationByRun)
    && ProjectsStay(s.runs.Keys, s.projectByRun, s'.projectByRun)
    && Stays(s.webhooks, s'.webhooks) && Stays(s.webhookResults, s'.webhookResults)
    && Stays(s.idempotency, s'.idempotency) && Stays(s.tenantIdempotency, s'.tenantIdempotency)
    && EffectsGrow(s.merchantEffects, s'.merchantEffects)
    && MessagesStay(s.queue.table, s'.queue.table) && s.nextRun <= s'.nextRun
  }

  lemma EvolvesTransitive(a: Store, b: Store, c: Store)
    requires Evolves(a, b) && Evolves(b, c)
    ensures Evolves(a, c)
  {
    MessagesStayTransitive(a.queue.table, b.queue.table, c.queue.table);
    forall r | r in a.runs
      ensures Get(c.correlationByRun, r) == Get(a.correlationByRun, r) && Get(c.projectByRun, r) == Get(a.projectByRun, r)
    {
      assert r in b.runs;
    }
  }

  lemma MessagesStayTransitive(a: Table, b: Table, c: Table)
    requires MessagesStay(a, b) && MessagesStay(b, c)
    ensures MessagesStay(a, c)
  {
    forall id | id in a && Settled(a[id])
      ensures c[id] == a[id]
    {
      assert Settled(b[id]);
    }
  }

  // ----- leases -----

  /** The table changed only in leases, attempts, times and flags. */
  predicate SameJobs(t: Table, t': Table) {
    t'.Keys == t.Keys && forall id :: id in t ==> Job(t'[id].message) == Job(t[id].message)
  }

  lemma SameMessages(t: Table, t': Table, k: string)
    requires SameJobs(t, t')
    ensures RunMessages(t', k) == RunMessages(t, k) && WebhookMessages(t', k) == WebhookMessages(t, k)
  {
    forall id | id in t
      ensures t'[id].message.payload == t[id].message.payload
    {
      assert Job(t'[id].message) == Job(t[id].message);
    }
  }

  lemma LeaseMail(q: Queue, q': Queue, runs: Runs, receipts: set<string>)
    requires MailOK(q, runs, receipts) && Sound(q') && SameJobs(q.table, q'.table)
    ensures MailOK(q', runs, receipts)
  {
    var t, t' := q.table, q'.table;
    forall id | id in t'
      ensures MessageOK(t'[id].message, runs, receipts)
    {
      assert Job(t'[id].message) == Job(t[id].message);
      assert MessageOK(t[id].message, runs, receipts);
    }
    forall k
      ensures |RunMessages(t', k)| == |RunMessages(t, k)| && |WebhookMessages(t', k)| == |WebhookMessages(t, k)|
    {
      SameMessages(t, t', k);
    }
  }

  lemma LeaseConsistent(s: Store, q: Queue)
    requires Consistent(s) && Sound(q) && SameJobs(s.queue.table, q.table)
    ensures Consistent(s.(queue := q))
  {
    LeaseMail(s.queue, q, s.runs, s.webhooks.Keys);
  }

  lemma LeaseEvolves(s: Store, q: Queue)
    requires MessagesStay(s.queue.table, q.table)
    ensures Evolves(s, s.(queue := q))
  {
  }

  lemma LeaseSettled(q: Queue, op: Op, q': Queue, a: Answer)
    requires Sound(q) && Step(q, op, q', a) && Named(op) && !op.PutOp?
    ensures forall id :: id in q.table && Settled(q.table[id]) ==> id in q'.table && q'.table[id] == q.table[id]
  {
    hide Names, Claimable;
    StepSound(q, op, q', a);
  }

  /** Every outbox operation but insertion only moves leases. */
  lemma LeaseStep(q: Queue, op: Op, q': Queue, a: Answer)
    requires Sound(q) && Step(q, op, q', a) && Named(op) && !op.PutOp?
    ensures Sound(q') && q'.next == q.next
    ensures SameJobs(q.table, q'.table) && MessagesStay(q.table, q'.table)
  {
    hide Sound, Claimable;
    LeaseSettled(q, op, q', a);
    StepSound(q, op, q', a);
  }

  // ----- new jobs -----

  function Added(id: string): set<string> {
    if id == "" then {} else {id}
  }

  lemma NoJobYet(t: Table, runs: Runs, receipts: set<string>, id: string)
    requires MessagesOK(t, runs, receipts) && id != ""
    ensures id !in runs ==> RunMessages(t, id) == {}
    ensures id !in receipts ==> WebhookMessages(t, id) == {}
  {
    forall k | k in t
      ensures MessageOK(t[k].message, runs, receipts)
    {
    }
  }

  lemma AddedMessages(t: Table, id: string, item: OutboxItem, k: string)
    requires id !in t && item.message.payload.Fields?
    ensures RunMessages(t[id := item], k)
         == RunMessages(t, k) + (if item.message.payload.runID == k then {id} else {})
    ensures WebhookMessages(t[id := item], k)
         == WebhookMessages(t, k) + (if item.message.payload.stripeEventID == k then {id} else {})
  {
  }

  lemma MessagesKept(t: Table, runs: Runs, runs': Runs, receipts: set<string>, receipts': set<string>)
    requires MessagesOK(t, runs, receipts) && receipts <= receipts'
    requires forall r :: r in runs ==> r in runs' && runs'[r].fault == runs[r].fault
    ensures MessagesOK(t, runs', receipts')
  {
    forall id | id in t
      ensures MessageOK(t[id].message, runs', receipts')
    {
      assert MessageOK(t[id].message, runs, receipts);
    }
  }

  lemma NewJobOK(t: Table, runs: Runs, receipts: set<string>, id: string, item: OutboxItem)
    requires MessagesOK(t, runs, receipts) && MessageOK(item.message, runs, receipts)
    ensures MessagesOK(t[id := item], runs, receipts)
  {
  }

  lemma JobPerRun(t: Table, runs: Runs, receipts: set<string>, id: string, item: OutboxItem)
    requires MessagesOK(t, runs, receipts) && OnePerRun(t, runs.Keys)
    requires id !in t && item.message.payload.Fields? && item.message.payload.runID !in runs && "" !in runs
    ensures OnePerRun(t[id := item], runs.Keys + Added(item.message.payload.runID))
  {
    forall k | k in runs.Keys + Added(item.message.payload.runID)
      ensures |RunMessages(t[id := item], k)| == 1
    {
      AddedMessages(t, id, item, k);
      if k !in runs {
        NoJobYet(t, runs, receipts, k);
      }
    }
  }

  lemma JobPerReceipt(t: Table, runs: Runs, receipts: set<string>, id: string, item: OutboxItem)
    requires MessagesOK(t, runs, receipts) && OnePerReceipt(t, receipts)
    requires id !in t && item.message.payload.Fields? && item.message.payload.stripeEventID !in receipts && "" !in receipts
    ensures OnePerReceipt(t[id := item], receipts + Added(item.message.payload.stripeEventID))
  {
    forall k | k in receipts + Added(item.message.payload.stripeEventID)
      ensures |WebhookMessages(t[id := item], k)| == 1
    {
      AddedMessages(t, id, item, k);
      if k !in receipts {
        NoJobYet(t, runs, receipts, k);
      }
    }
  }

  /** A new job for a run that was not there before. */
  lemma NewRunJob(q: Queue, q': Queue, runs: Runs, receipts: set<string>, id: string, item: OutboxItem, run: Run, r: string)
    requires MailOK(q, runs, receipts) && Sound(q') && id !in q.table && q'.table == q.table[id := item]
    requires r != "" && r !in runs && "" !in runs && "" !in receipts
    requires item.message.payload == Fields(r, run.fault, "", "") && IsRunTopic(item.message.topic)
    ensures MailOK(q', runs[r := run], receipts) && MessagesStay(q.table, q'.table)
  {
    hide RunMessages, WebhookMessages, Sound, MessagesOK;
    MessagesKept(q.table, runs, runs[r := run], receipts, receipts);
    NewJobOK(q.table, runs[r := run], receipts, id, item);
    JobPerRun(q.table, runs, receipts, id, item);
    JobPerReceipt(q.table, runs, receipts, id, item);
    assert runs[r := run].Keys == runs.Keys + Added(r) && receipts + Added("") == receipts;
  }

  /** A new job for a receipt that was not there before. */
  lemma NewReceiptJob(q: Queue, q': Queue, runs: Runs, receipts: set<string>,
                      id: string, item: OutboxItem, e: string, eventType: string)
    requires MailOK(q, runs, receipts) && Sound(q') && id !in q.table && q'.table == q.table[id := item]
    requires e != "" && e !in receipts && "" !in runs && "" !in receipts && eventType != ""
    requires item.message.payload == Fields("", Unset, e, eventType) && item.message.topic == WebhookReceived
    requires item.message.aggregateID == e
    ensures MailOK(q', runs, receipts + {e}) && MessagesStay(q.table, q'.table)
  {
    MessagesKept(q.table, runs, runs, receipts, receipts + {e});
    NewJobOK(q.table, runs, receipts + {e}, id, item);
    JobPerRun(q.table, runs, receipts, id, item);
    JobPerReceipt(q.table, runs, receipts, id, item);
    assert runs.Keys + Added("") == runs.Keys;
  }

  // ----- a new run -----

  /** What creation needs from its caller: a well-formed bundle, and an allocated run
      identifier that no stored run has. */
  ghost predicate Creatable(s: Store, scope: Scope, keyHash: Hash, b: RunBundle) {
    && WellFormedBundle(b) && SupportedFault(b.run.fault) && b.verificationFault == b.run.fault
    && IsRunTopic(RunTopic(b.topic))
    && b.run.id !in s.runs && b.run.id in RunNames(s.nextRun) && b.run.id != ""
    && Lookup(s, scope, keyHash).None?
  }

  lemma InsertBooks(s: Store, scope: Scope, keyHash: Hash, requestHash: Hash, b: RunBundle, now: int)
    requires BooksOK(s) && WellFormedBundle(b) && SupportedFault(b.run.fault) && b.run.id !in s.runs
    ensures BooksOK(Insert(s, scope, keyHash, requestHash, b, now))
  {
    StoreRun(s.runs, s.events, s.reports, b.run.id, b.run, b.events, b.report);
    PlainLedgerKeeps(s, b.run.id, b.run, b.events, b.report, b.correlationID);
  }

  lemma PlainLedgerKeeps(s: Store, r: string, run: Run, events: seq<Event>, report: Report, correlation: string)
    requires r !in s.events
    requires forall i :: 0 <= i < |events| ==> !events[i].evidence.StripeWebhook?
    requires ProjectionsSettled(s.events, s.webhookResults)
    requires ProjectionsMatch(s.events, s.runs, s.correlationByRun) && ProjectionsMarked(s.events, s.reports)
    requires ResultsOK(s.webhooks.Keys, s.webhookResults, s.events)
    ensures ProjectionsSettled(s.events[r := events], s.webhookResults)
    ensures ProjectionsMatch(s.events[r := events], s.runs[r := run], s.correlationByRun[r := correlation])
    ensures ProjectionsMarked(s.events[r := events], s.reports[r := report])
    ensures ResultsOK(s.webhooks.Keys, s.webhookResults, s.events[r := events])
  {
    var ledgers := s.events[r := events];
    forall x, i: nat, e
      ensures ProjectedAt(ledgers, x, i, e) <==> ProjectedAt(s.events, x, i, e)
      ensures ProjectedAt(ledgers, x, i, e) ==> x != r
    {
    }
    forall x, i: nat, e | ProjectedAt(ledgers, x, i, e)
      ensures Marked(s.reports[r := report], x)
    {
      assert Marked(s.reports, x);
    }
    forall e, x | InLedger(s.events, x, e)
      ensures InLedger(ledgers, x, e)
    {
      var i: nat :| ProjectedAt(s.events, x, i, e);
      assert ProjectedAt(ledgers, x, i, e);
    }
  }

  lemma AddKey<K>(records: map<K, Record>, runIDs: set<string>, k: K, record: Record, r: string)
    requires Refer(records, runIDs) && k !in records && record.runID !in runIDs
    ensures KeysOf(records[k := record], r) == if r == record.runID then {k} else KeysOf(records, r)
    ensures r !in runIDs ==> KeysOf(records, r) == {}
  {
  }

  lemma InsertKeys(s: Store, scope: Scope, keyHash: Hash, record: Record)
    requires Refer(s.idempotency, s.runs.Keys) && Refer(s.tenantIdempotency, s.runs.Keys)
    requires OneKeyEach(s.runs.Keys, s.idempotency, s.tenantIdempotency)
    requires record.runID !in s.runs && Lookup(s, scope, keyHash).None?
    ensures var s' := Remember(s, scope, keyHash, record);
      OneKeyEach(s.runs.Keys + {record.runID}, s'.idempotency, s'.tenantIdempotency)
  {
    var s' := Remember(s, scope, keyHash, record);
    forall r | r in s.runs.Keys + {record.runID}
      ensures |KeysOf(s'.idempotency, r)| + |KeysOf(s'.tenantIdempotency, r)| == 1
    {
      match scope {
        case Public =>
          AddKey(s.idempotency, s.runs.Keys, keyHash, record, r);
          assert r !in s.runs ==> KeysOf(s.tenantIdempotency, r) == {};
        case Project(id) =>
          AddKey(s.tenantIdempotency, s.runs.Keys, TenantKey(id, keyHash), record, r);
          assert r !in s.runs ==> KeysOf(s.idempotency, r) == {};
      }
    }
  }

  lemma InsertMail(s: Store, b: RunBundle, now: int)
    requires MailOK(s.queue, s.runs, s.webhooks.Keys)
    requires b.run.id !in s.runs && b.run.id != "" && "" !in s.runs && "" !in s.webhooks
    requires b.verificationFault == b.run.fault && IsRunTopic(RunTopic(b.topic))
    ensures var q := Enqueued(s.queue, RunTopic(b.topic), b.run.id, RunPayload(b), now);
      MailOK(q, s.runs[b.run.id := b.run], s.webhooks.Keys) && MessagesStay(s.queue.table, q.table)
  {
    var id, topic := OutboxID(s.queue.next), RunTopic(b.topic);
    PutSound(s.queue, topic, b.run.id, RunPayload(b), now);
    NewRunJob(s.queue, Enqueued(s.queue, topic, b.run.id, RunPayload(b), now), s.runs, s.webhooks.Keys,
              id, Ready(id, topic, b.run.id, RunPayload(b), now), b.run, b.run.id);
  }

  lemma PlainEntriesTell(ledgers: Ledgers, receipts: Receipts, r: string, events: seq<Event>)
    requires ProjectionsTell(ledgers, receipts)
    requires forall i :: 0 <= i < |events| ==> !events[i].evidence.StripeWebhook?
    ensures ProjectionsTell(ledgers[r := events], receipts)
  {
    var ledgers' := ledgers[r := events];
    forall x, i: nat, e | ProjectedAt(ledgers', x, i, e)
      ensures e in receipts && Tells(ledgers'[x][i], receipts[e])
    {
      assert ProjectedAt(ledgers, x, i, e);
    }
  }

  /** Matched runs are stored runs. */
  lemma MatchedAreStored(receipts: set<string>, results: Results, ledgers: Ledgers, e: string)
    requires ResultsOK(receipts, results, ledgers) && e in results && results[e].status == Matched
    ensures results[e].runID in ledgers
  {
    assert InLedger(ledgers, results[e].runID, e);
  }

  lemma NewProjectTells(s: Store, projects: map<string, string>)
    requires ResultsOK(s.webhooks.Keys, s.webhookResults, s.events)
    requires ResultsTell(s.webhooks, s.webhookResults, s.projectByRun)
    requires ProjectsStay(s.events.Keys, s.projectByRun, projects)
    ensures ResultsTell(s.webhooks, s.webhookResults, projects)
  {
    hide ResultsOK, IsSupportedStripeWebhookType;
    forall e | e in s.webhookResults
      ensures ResultTells(s.webhookResults[e], e, s.webhooks[e], projects)
    {
      if s.webhookResults[e].status == Matched {
        MatchedAreStored(s.webhooks.Keys, s.webhookResults, s.events, e);
      }
    }
  }

  lemma InsertProjects(s: Store, scope: Scope, keyHash: Hash, record: Record)
    requires Refer(s.idempotency, s.runs.Keys) && Refer(s.tenantIdempotency, s.runs.Keys)
    requires ProjectsOK(s.runs.Keys, s.idempotency, s.tenantIdempotency, s.projectByRun)
    requires record.runID !in s.runs && Lookup(s, scope, keyHash).None?
    ensures var s' := Remember(s, scope, keyHash, record);
      && ProjectsOK(s.runs.Keys + {record.runID}, s'.idempotency, s'.tenantIdempotency, s'.projectByRun)
      && ProjectsStay(s.runs.Keys, s.projectByRun, s'.projectByRun)
  {
    hide TenantKey;
    if scope.Project? {
      var s' := Remember(s, scope, keyHash, record);
      forall p, h | TenantKey(p, h) in s'.tenantIdempotency
        ensures var r := s'.tenantIdempotency[TenantKey(p, h)].runID; r in s'.projectByRun && s'.projectByRun[r] == p
      {
        TenantKeyInjective(p, h, scope.id, keyHash);
      }
    }
  }

  lemma InsertFacts(s: Store, scope: Scope, keyHash: Hash, requestHash: Hash, b: RunBundle, now: int)
    requires FactsOK(s) && BooksOK(s) && Aligned(s) && WellFormedBundle(b)
    requires b.run.id !in s.runs && Lookup(s, scope, keyHash).None?
    ensures FactsOK(Insert(s, scope, keyHash, requestHash, b, now))
    ensures ProjectsStay(s.runs.Keys, s.projectByRun, Insert(s, scope, keyHash, requestHash, b, now).projectByRun)
  {
    hide RunsOK, ProjectionsSettled, ProjectionsMatch, ProjectionsMarked, ResultsOK, ProjectionsTell, ResultsTell, ProjectsOK,
         ProjectsStay, Refer, Enqueued, Remember, Ledger, SummaryAgrees, UniqueIDs, HasAssertion;
    PlainEntriesTell(s.events, s.webhooks, b.run.id, b.events);
    InsertProjects(s, scope, keyHash, Record(requestHash, b.run.id));
    RememberKeeps(s, scope, keyHash, Record(requestHash, b.run.id));
    NewProjectTells(s, Remember(s, scope, keyHash, Record(requestHash, b.run.id)).projectByRun);
    assert s.runs[b.run.id := b.run].Keys == s.runs.Keys + {b.run.id};
  }

  lemma RememberKeeps(s: Store, scope: Scope, keyHash: Hash, record: Record)
    ensures Remember(s, scope, keyHash, record)
         == s.(idempotency := Remember(s, scope, keyHash, record).idempotency,
               tenantIdempotency := Remember(s, scope, keyHash, record).tenantIdempotency,
               projectByRun := Remember(s, scope, keyHash, record).projectByRun)
  {
  }

  lemma AlignedParts(s: Store)
    requires Aligned(s)
    ensures Refer(s.idempotency, s.runs.Keys) && Refer(s.tenantIdempotency, s.runs.Keys)
  {
  }

  lemma InsertNames(s: Store, scope: Scope, keyHash: Hash, requestHash: Hash, b: RunBundle, now: int)
    requires KeysOK(s) && b.run.id !in s.runs && b.run.id in RunNames(s.nextRun) && b.run.id != ""
    requires Lookup(s, scope, keyHash).None?
    ensures KeysOK(Insert(s, scope, keyHash, requestHash, b, now))
  {
    hide Aligned, OneKeyEach, NamesOK, Enqueued, RunNames;
    AlignedParts(s);
    InsertAligned(s, scope, keyHash, requestHash, b, now);
    InsertKeys(s, scope, keyHash, Record(requestHash, b.run.id));
    AddName(s.runs.Keys, s.nextRun, s.webhooks, b.run.id);
    assert s.runs[b.run.id := b.run].Keys == s.runs.Keys + {b.run.id};
  }

  lemma AddName(runIDs: set<string>, next: nat, receipts: map<string, WebhookReceipt>, id: string)
    requires NamesOK(runIDs, next, receipts) && id in RunNames(next) && id != ""
    ensures NamesOK(runIDs + {id}, next, receipts)
  {
  }

  lemma AddedStays<K(!new), V(!new)>(m: map<K, V>, k: K, v: V)
    requires k !in m
    ensures Stays(m, m[k := v])
  {
  }

  lemma AddedRunGrows(runs: Runs, ledgers: Ledgers, reports: Reports, b: RunBundle)
    requires b.run.id !in runs && ledgers.Keys == runs.Keys && reports.Keys == runs.Keys
    ensures RunsGrow(runs, runs[b.run.id := b.run])
    ensures LedgersGrow(ledgers, ledgers[b.run.id := b.events])
    ensures ReportsGrow(reports, reports[b.run.id := b.report])
  {
  }

  lemma InsertEvolves(s: Store, scope: Scope, keyHash: Hash, requestHash: Hash, b: RunBundle, now: int)
    requires s.events.Keys == s.runs.Keys && s.reports.Keys == s.runs.Keys && b.run.id !in s.runs
    requires Lookup(s, scope, keyHash).None?
    requires MessagesStay(s.queue.table, Insert(s, scope, keyHash, requestHash, b, now).queue.table)
    requires ProjectsStay(s.runs.Keys, s.projectByRun, Insert(s, scope, keyHash, requestHash, b, now).projectByRun)
    ensures Evolves(s, Insert(s, scope, keyHash, requestHash, b, now))
  {
    hide MessagesStay, RunsGrow, LedgersGrow, ReportsGrow, ProjectsStay, Enqueued;
    AddedRunGrows(s.runs, s.events, s.reports, b);
    match scope {
      case Public => AddedStays(s.idempotency, keyHash, Record(requestHash, b.run.id));
      case Project(id) => AddedStays(s.tenantIdempotency, TenantKey(id, keyHash), Record(requestHash, b.run.id));
    }
  }

  /** What the keys say about names, without the rest. */
  lemma NamesOf(s: Store)
    requires KeysOK(s)
    ensures Aligned(s) && "" !in s.runs && "" !in s.webhooks && s.runs.Keys <= RunNames(s.nextRun) && s.nextRun >= 4
    ensures forall e :: e in s.webhooks ==> s.webhooks[e].eventID == e
  {
  }

  /** A granted creation keeps everything consistent and overwrites nothing. */
  lemma InsertConsistent(s: Store, scope: Scope, keyHash: Hash, requestHash: Hash, b: RunBundle, now: int)
    requires Consistent(s) && Creatable(s, scope, keyHash, b)
    ensures Consistent(Insert(s, scope, keyHash, requestHash, b, now))
    ensures Evolves(s, Insert(s, scope, keyHash, requestHash, b, now))
    ensures var s', id := Insert(s, scope, keyHash, requestHash, b, now), b.run.id;
      && s'.runs == s.runs[id := b.run] && s'.events == s.events[id := b.events] && s'.reports == s.reports[id := b.report]
      && Get(s'.correlationByRun, id) == b.correlationID
  {
    hide KeysOK, BooksOK, MailOK, FactsOK, Evolves, MessagesStay, ProjectsStay;
    NamesOf(s);
    InsertFacts(s, scope, keyHash, requestHash, b, now);
    InsertNames(s, scope, keyHash, requestHash, b, now);
    InsertBooks(s, scope, keyHash, requestHash, b, now);
    InsertMail(s, b, now);
    InsertEvolves(s, scope, keyHash, requestHash, b, now);
  }

  // ----- allocation, ingress, effects -----

  lemma FreshRunName(next: nat)
    requires next >= 1
    ensures RunID(next) !in RunNames(next)
    ensures RunNames(next + 1) == RunNames(next) + {RunID(next)}
  {
    forall n: nat | 1 <= n < next
      ensures RunID(n) != RunID(next)
    {
      RunIDInjective(n, next);
    }
  }

  lemma AllocateConsistent(s: Store)
    requires Consistent(s)
    ensures Consistent(NextRunID(s).0) && Evolves(s, NextRunID(s).0)
    ensures NextRunID(s).1 !in RunNames(s.nextRun)
    ensures RunNames(NextRunID(s).0.nextRun) == RunNames(s.nextRun) + {NextRunID(s).1}
  {
    FreshRunName(s.nextRun);
  }

  lemma IngressMail(s: Store, r: WebhookReceipt, now: int)
    requires MailOK(s.queue, s.runs, s.webhooks.Keys)
    requires r.eventID !in s.webhooks && r.eventID != "" && r.eventType != "" && "" !in s.runs && "" !in s.webhooks
    ensures var q := Enqueued(s.queue, WebhookReceived, r.eventID, WebhookPayload(r), now);
      MailOK(q, s.runs, s.webhooks.Keys + {r.eventID}) && MessagesStay(s.queue.table, q.table)
  {
    var id := OutboxID(s.queue.next);
    PutSound(s.queue, WebhookReceived, r.eventID, WebhookPayload(r), now);
    NewReceiptJob(s.queue, Enqueued(s.queue, WebhookReceived, r.eventID, WebhookPayload(r), now), s.runs, s.webhooks.Keys,
                  id, Ready(id, WebhookReceived, r.eventID, WebhookPayload(r), now), r.eventID, r.eventType);
  }

  lemma ReceiptBooks(s: Store, s': Store, r: WebhookReceipt)
    requires KeysOK(s) && BooksOK(s) && r.eventID !in s.webhooks && r.eventID != ""
    requires s' == s.(webhooks := s.webhooks[r.eventID := r], queue := s'.queue)
    ensures KeysOK(s') && BooksOK(s')
    ensures s'.webhooks.Keys == s.webhooks.Keys + {r.eventID}
  {
    hide RunsOK, ProjectionsSettled, ProjectionsMatch, ProjectionsMarked, OneKeyEach, RunNames, InLedger, Terminal,
         MessagesStay;
  }

  lemma ReceiptFacts(s: Store, s': Store, r: WebhookReceipt)
    requires FactsOK(s) && r.eventID !in s.webhooks
    requires s' == s.(webhooks := s.webhooks[r.eventID := r], queue := s'.queue)
    ensures FactsOK(s')
  {
    hide Tells, ResultTells, ProjectsOK;
  }

  lemma ReceiptEvolves(s: Store, s': Store, r: WebhookReceipt)
    requires s' == s.(webhooks := s.webhooks[r.eventID := r], queue := s'.queue) && r.eventID !in s.webhooks
    requires MessagesStay(s.queue.table, s'.queue.table)
    ensures Evolves(s, s')
  {
  }

  lemma NothingEvolves(s: Store)
    ensures Evolves(s, s)
  {
  }

  lemma IngressConsistent(s: Store, r: WebhookReceipt, now: int)
    requires Consistent(s) && r.eventID != "" && r.eventType != ""
    ensures Consistent(MarkWebhookSeen(s, r, now).0) && Evolves(s, MarkWebhookSeen(s, r, now).0)
    ensures MarkWebhookSeen(s, r, now).1 != SeenNew ==> MarkWebhookSeen(s, r, now).0 == s
    ensures MarkWebhookSeen(s, r, now).1 == SeenNew <==> r.eventID !in s.webhooks
    ensures r.eventID !in s.webhooks ==> MarkWebhookSeen(s, r, now).0.webhooks == s.webhooks[r.eventID := r]
  {
    hide KeysOK, BooksOK, MailOK, FactsOK, Evolves, MessagesStay, Enqueued;
    NamesOf(s);
    NothingEvolves(s);
    if r.eventID !in s.webhooks {
      var s' := MarkWebhookSeen(s, r, now).0;
      IngressMail(s, r, now);
      ReceiptBooks(s, s', r);
      ReceiptFacts(s, s', r);
      ReceiptEvolves(s, s', r);
    }
  }

  lemma EffectConsistent(s: Store, effectID: string, sequence: int)
    requires Consistent(s)
    ensures var s' := s.(merchantEffects := ApplyEffect(s.merchantEffects, effectID, sequence).0);
      Consistent(s') && Evolves(s, s')
  {
  }

  // ----- reports -----

  lemma AddOnceKeeps(report: Report, a: Assertion)
    requires UniqueIDs(report.assertions) && SummaryAgrees(report)
    ensures var report' := AddOnce(report, a);
      && UniqueIDs(report'.assertions) && SummaryAgrees(report')
      && report'.run == report.run && report.assertions <= report'.assertions
      && (forall id :: HasAssertion(report'.assertions, id) <==> HasAssertion(report.assertions, id) || id == a.id)
  {
    if !HasAssertion(report.assertions, a.id) {
      var grown := report.assertions + [a];
      assert grown[|report.assertions|] == a;
      forall id
        ensures HasAssertion(grown, id) <==> HasAssertion(report.assertions, id) || id == a.id
      {
        if HasAssertion(report.assertions, id) {
          var i :| 0 <= i < |report.assertions| && report.assertions[i].id == id;
          assert grown[i].id == id;
        }
      }
    }
  }

  lemma MarksKept(ledgers: Ledgers, reports: Reports, r: string, report: Report)
    requires ProjectionsMarked(ledgers, reports) && r in reports
    requires HasAssertion(reports[r].assertions, WEBHOOK_ASSERTION) ==> HasAssertion(report.assertions, WEBHOOK_ASSERTION)
    ensures ProjectionsMarked(ledgers, reports[r := report])
  {
    forall x, i: nat, e | ProjectedAt(ledgers, x, i, e)
      ensures Marked(reports[r := report], x)
    {
      assert Marked(reports, x);
    }
  }

  lemma RecordBooks(s: Store, r: string, a: Assertion)
    requires BooksOK(s) && r in s.runs && r in s.reports
    ensures var report := AddOnce(s.reports[r], a);
      && BooksOK(s.(reports := s.reports[r := report]))
      && HasAssertion(report.assertions, a.id) && s.reports[r].assertions <= report.assertions
  {
    assert RunOK(r, s.runs[r], s.events[r], s.reports[r]);
    var report := AddOnce(s.reports[r], a);
    AddOnceKeeps(s.reports[r], a);
    StoreReport(s.runs, s.events, s.reports, r, report);
    MarksKept(s.events, s.reports, r, report);
  }

  lemma ReportEvolves(s: Store, r: string, report: Report)
    requires r in s.reports && s.reports[r].assertions <= report.assertions
    ensures Evolves(s, s.(reports := s.reports[r := report]))
  {
  }

  lemma RecordConsistent(s: Store, r: string, a: Assertion)
    requires Consistent(s)
    ensures Consistent(RecordVerification(s, r, a).0) && Evolves(s, RecordVerification(s, r, a).0)
    ensures RecordVerification(s, r, a).1 == (r in s.runs)
    ensures r in s.runs ==> HasAssertion(RecordVerification(s, r, a).0.reports[r].assertions, a.id)
  {
    if r in s.runs {
      RecordBooks(s, r, a);
      ReportEvolves(s, r, AddOnce(s.reports[r], a));
      assert s.reports[r := AddOnce(s.reports[r], a)].Keys == s.reports.Keys;
    }
  }

  // ----- webhook projection -----

  lemma {:induction false} NextIsNext(events: seq<Event>)
    requires Numbered(events)
    ensures NextSequence(events) == |events| + 1
  {
    if events != [] {
      NextIsNext(events[..|events| - 1]);
    }
  }

  lemma SettleProjections(s: Store, e: string, result: WebhookResult)
    requires ProjectionsSettled(s.events, s.webhookResults) && ResultsOK(s.webhooks.Keys, s.webhookResults, s.events)
    requires e in s.webhooks && e !in s.webhookResults && result.status in {Unmatched, Ignored}
    ensures ProjectionsSettled(s.events, s.webhookResults[e := result])
    ensures ResultsOK(s.webhooks.Keys, s.webhookResults[e := result], s.events)
  {
  }

  lemma SettleConsistent(s: Store, e: string, result: WebhookResult)
    requires Consistent(s) && e in s.webhooks && e !in s.webhookResults && result.status in {Unmatched, Ignored}
    requires ResultTells(result, e, s.webhooks[e], s.projectByRun)
    ensures Consistent(s.(webhookResults := s.webhookResults[e := result]))
  {
    hide MailOK, KeysOK, FactsOK, ProjectionsSettled, ProjectionsMatch, ProjectionsMarked, ResultsOK, RunsOK, ResultTells;
    SettleProjections(s, e, result);
    SettleKeys(s, s.webhookResults[e := result]);
    SettleFacts(s, e, result);
  }

  lemma SettleKeys(s: Store, results: Results)
    requires KeysOK(s)
    ensures KeysOK(s.(webhookResults := results))
  {
    hide NamesOK, OneKeyEach;
  }

  lemma SettleFacts(s: Store, e: string, result: WebhookResult)
    requires FactsOK(s) && e in s.webhooks && ResultTells(result, e, s.webhooks[e], s.projectByRun)
    ensures FactsOK(s.(webhookResults := s.webhookResults[e := result]))
  {
    hide ProjectionsTell, ProjectsOK, ResultTells;
  }

  /** The result of a receipt says why. */
  lemma OutcomeTells(s: Store, r: WebhookReceipt)
    ensures ResultTells(ResultOf(s, r, Classify(s, r)), r.eventID, r, s.projectByRun)
  {
    hide IsSupportedStripeWebhookType, Classify;
    SettledBecause(s, r);
    var v := Classify(s, r);
    if v.Match? {
      MatchedToTheOnlyCarrier(s, r, v.runID);
    } else {
      SettledCode(s, r);
    }
  }

  lemma SettledCode(s: Store, r: WebhookReceipt)
    requires Classify(s, r).Settle?
    ensures Classify(s, r).code != NoCode && (Classify(s, r).status == Ignored <==> Classify(s, r).code == UnsupportedEventType)
    ensures Classify(s, r).status in {Ignored, Unmatched}
  {
    hide IsSupportedStripeWebhookType, ObjectMatches, CorrelatedMatches;
  }

  lemma SettleEvolves(s: Store, e: string, result: WebhookResult)
    requires e !in s.webhookResults
    ensures Evolves(s, s.(webhookResults := s.webhookResults[e := result]))
  {
    AddedStays(s.webhookResults, e, result);
  }

  /** One entry more, at the end of one ledger. */
  lemma AppendedProjection(ledgers: Ledgers, r: string, event: Event, x: string, i: nat, e: string)
    requires r in ledgers && event.evidence.StripeWebhook?
    ensures ProjectedAt(ledgers[r := ledgers[r] + [event]], x, i, e)
      <==> (ProjectedAt(ledgers, x, i, e) || (x == r && i == |ledgers[r]| && e == event.evidence.stripeEventID))
  {
  }

  lemma MatchSettled(ledgers: Ledgers, results: Results, r: string, event: Event, e: string, result: WebhookResult)
    requires ProjectionsSettled(ledgers, results)
    requires r in ledgers && event.evidence.StripeWebhook? && event.evidence.stripeEventID == e
    requires e !in results && result.status == Matched && result.runID == r
    ensures ProjectionsSettled(ledgers[r := ledgers[r] + [event]], results[e := result])
  {
    var ledgers' := ledgers[r := ledgers[r] + [event]];
    forall x, i: nat, y
      ensures ProjectedAt(ledgers', x, i, y)
        <==> (ProjectedAt(ledgers, x, i, y) || (x == r && i == |ledgers[r]| && y == e))
    {
      AppendedProjection(ledgers, r, event, x, i, y);
    }
  }

  lemma MatchResults(ledgers: Ledgers, results: Results, receipts: set<string>, r: string, event: Event,
                     e: string, result: WebhookResult)
    requires ResultsOK(receipts, results, ledgers)
    requires r in ledgers && event.evidence.StripeWebhook? && event.evidence.stripeEventID == e
    requires e in receipts && result.status == Matched && result.runID == r
    ensures ResultsOK(receipts, results[e := result], ledgers[r := ledgers[r] + [event]])
  {
    var ledgers' := ledgers[r := ledgers[r] + [event]];
    assert ProjectedAt(ledgers', r, |ledgers[r]|, e);
    forall x, y | InLedger(ledgers, x, y)
      ensures InLedger(ledgers', x, y)
    {
      var i: nat :| ProjectedAt(ledgers, x, i, y);
      AppendedProjection(ledgers, r, event, x, i, y);
    }
  }

  lemma MatchMatches(ledgers: Ledgers, runs: Runs, correlations: map<string, string>, r: string, event: Event, run: Run)
    requires ProjectionsMatch(ledgers, runs, correlations)
    requires r in ledgers && r in runs && event.evidence.StripeWebhook?
    requires run.stripeObjectID == runs[r].stripeObjectID == event.evidence.objectID
    requires event.evidence.correlationID == Get(correlations, r)
    ensures ProjectionsMatch(ledgers[r := ledgers[r] + [event]], runs[r := run], correlations)
  {
    var ledgers' := ledgers[r := ledgers[r] + [event]];
    forall x, i: nat, e | ProjectedAt(ledgers', x, i, e)
      ensures x in runs && ledgers'[x][i].evidence.objectID == runs[r := run][x].stripeObjectID
      ensures ledgers'[x][i].evidence.correlationID == Get(correlations, x)
    {
      AppendedProjection(ledgers, r, event, x, i, e);
      if ProjectedAt(ledgers, x, i, e) {
        assert ledgers'[x][i] == ledgers[x][i];
      }
    }
  }

  lemma MatchMarked(ledgers: Ledgers, reports: Reports, r: string, event: Event, report: Report)
    requires ProjectionsMarked(ledgers, reports)
    requires r in ledgers && event.evidence.StripeWebhook? && HasAssertion(report.assertions, WEBHOOK_ASSERTION)
    ensures ProjectionsMarked(ledgers[r := ledgers[r] + [event]], reports[r := report])
  {
    var ledgers' := ledgers[r := ledgers[r] + [event]];
    forall x, i: nat, e | ProjectedAt(ledgers', x, i, e)
      ensures Marked(reports[r := report], x)
    {
      AppendedProjection(ledgers, r, event, x, i, e);
      if x != r {
        assert Marked(reports, x);
      }
    }
  }

  /** The receipt is unprocessed and belongs to this run. */
  ghost predicate Belongs(s: Store, r: WebhookReceipt, runID: string, result: WebhookResult) {
    && r.eventID in s.webhooks && s.webhooks[r.eventID] == r && r.eventID !in s.webhookResults
    && ResultTells(result, r.eventID, r, s.projectByRun)
    && runID in s.runs && s.runs[runID].stripeObjectID == r.stripeObjectID
    && Get(s.correlationByRun, runID) == r.correlationID
    && result.status == Matched && result.runID == runID
  }

  /** The parts of a projected run: its next event, its new count, its enriched report. */
  lemma ProjectedRun(s: Store, r: WebhookReceipt, runID: string, now: int)
    requires Aligned(s) && runID in s.runs && RunOK(runID, s.runs[runID], s.events[runID], s.reports[runID])
    ensures var n := |s.events[runID]| + 1;
      var event := BuildWebhookRunEvent(r, runID, n, now);
      var run := s.runs[runID].(eventCount := n);
      var report := AddOnce(s.reports[runID].(run := run), WebhookCorrelationAssertion(r));
      && ProjectWebhook(s, r, runID, now)
         == s.(events := s.events[runID := s.events[runID] + [event]], runs := s.runs[runID := run],
               reports := s.reports[runID := report])
      && RunOK(runID, run, s.events[runID] + [event], report)
      && HasAssertion(report.assertions, WEBHOOK_ASSERTION)
      && s.reports[runID].assertions <= report.assertions
  {
    NextIsNext(s.events[runID]);
    var run := s.runs[runID].(eventCount := |s.events[runID]| + 1);
    AddOnceKeeps(s.reports[runID].(run := run), WebhookCorrelationAssertion(r));
  }

  function AfterMatch(s: Store, r: WebhookReceipt, runID: string, result: WebhookResult, now: int): Store
    requires runID in s.runs && runID in s.events && runID in s.reports
  {
    ProjectWebhook(s, r, runID, now).(webhookResults := s.webhookResults[r.eventID := result])
  }

  lemma MatchBooks(s: Store, r: WebhookReceipt, runID: string, result: WebhookResult, now: int)
    requires Aligned(s) && BooksOK(s) && Belongs(s, r, runID, result)
    ensures BooksOK(AfterMatch(s, r, runID, result, now))
  {
    assert RunOK(runID, s.runs[runID], s.events[runID], s.reports[runID]);
    ProjectedRun(s, r, runID, now);
    var n := |s.events[runID]| + 1;
    var event := BuildWebhookRunEvent(r, runID, n, now);
    var run := s.runs[runID].(eventCount := n);
    var report := AddOnce(s.reports[runID].(run := run), WebhookCorrelationAssertion(r));
    StoreRun(s.runs, s.events, s.reports, runID, run, s.events[runID] + [event], report);
    MatchSettled(s.events, s.webhookResults, runID, event, r.eventID, result);
    MatchResults(s.events, s.webhookResults, s.webhooks.Keys, runID, event, r.eventID, result);
    MatchMatches(s.events, s.runs, s.correlationByRun, runID, event, run);
    MatchMarked(s.events, s.reports, runID, event, report);
  }

  /** The appended entry says what the receipt says, under the next number; if Stripe did not
      date the event, its time is that of the processing. */
  lemma EntryTells(r: WebhookReceipt, runID: string, n: int, now: int)
    ensures var event := BuildWebhookRunEvent(r, runID, n, now);
      && Tells(event, r) && event.evidence.stripeEventID == r.eventID
      && event.runID == runID && event.sequence == n && (r.stripeCreatedAt.None? ==> event.at == now)
  {
  }

  lemma MatchTells(ledgers: Ledgers, receipts: Receipts, r: string, event: Event, e: string)
    requires ProjectionsTell(ledgers, receipts) && r in ledgers && e in receipts
    requires Tells(event, receipts[e]) && event.evidence.stripeEventID == e
    ensures ProjectionsTell(ledgers[r := ledgers[r] + [event]], receipts)
  {
    hide Tells;
    TellsWebhook(event, receipts[e]);
    var ledgers' := ledgers[r := ledgers[r] + [event]];
    forall x, i: nat, y | ProjectedAt(ledgers', x, i, y)
      ensures y in receipts && Tells(ledgers'[x][i], receipts[y])
    {
      AppendedProjection(ledgers, r, event, x, i, y);
      if ProjectedAt(ledgers, x, i, y) {
        assert ledgers'[x][i] == ledgers[x][i];
      }
    }
  }

  lemma TellsWebhook(event: Event, r: WebhookReceipt)
    requires Tells(event, r)
    ensures event.evidence.StripeWebhook?
  {
  }

  lemma MatchFacts(s: Store, r: WebhookReceipt, runID: string, result: WebhookResult, now: int)
    requires Aligned(s) && FactsOK(s) && BooksOK(s) && Belongs(s, r, runID, result)
    ensures FactsOK(AfterMatch(s, r, runID, result, now))
  {
    hide ProjectionsSettled, ProjectionsMatch, ProjectionsMarked, ResultsOK, ProjectionsTell, ResultTells, Tells, AddOnce,
         NextSequence, Ledger, UniqueIDs, SummaryAgrees, Refer, ProjectsOK, BuildWebhookRunEvent;
    assert RunOK(runID, s.runs[runID], s.events[runID], s.reports[runID]);
    ProjectedRun(s, r, runID, now);
    var n := |s.events[runID]| + 1;
    EntryTells(r, runID, n, now);
    MatchTells(s.events, s.webhooks, runID, BuildWebhookRunEvent(r, runID, n, now), r.eventID);
    assert s.runs[runID := s.runs[runID].(eventCount := n)].Keys == s.runs.Keys;
  }

  lemma MatchKeys(s: Store, s': Store)
    requires KeysOK(s) && Aligned(s') && s'.runs.Keys == s.runs.Keys && s'.nextRun == s.nextRun
    requires s'.webhooks == s.webhooks
    requires s'.idempotency == s.idempotency && s'.tenantIdempotency == s.tenantIdempotency
    ensures KeysOK(s')
  {
  }

  lemma MatchMail(s: Store, runs': Runs)
    requires MailOK(s.queue, s.runs, s.webhooks.Keys) && runs'.Keys == s.runs.Keys
    requires RunsGrow(s.runs, runs')
    ensures MailOK(s.queue, runs', s.webhooks.Keys)
  {
    forall r | r in s.runs
      ensures runs'[r].fault == s.runs[r].fault
    {
      assert Frozen(runs'[r]) == Frozen(s.runs[r]);
    }
    MessagesKept(s.queue.table, s.runs, runs', s.webhooks.Keys, s.webhooks.Keys);
  }

  lemma GrownRun(runs: Runs, ledgers: Ledgers, reports: Reports, r: string, run: Run, event: Event, report: Report)
    requires r in runs && r in ledgers && r in reports
    requires Frozen(run) == Frozen(runs[r]) && reports[r].assertions <= report.assertions
    ensures RunsGrow(runs, runs[r := run])
    ensures LedgersGrow(ledgers, ledgers[r := ledgers[r] + [event]])
    ensures ReportsGrow(reports, reports[r := report])
  {
  }

  lemma MatchEvolves(s: Store, r: WebhookReceipt, runID: string, result: WebhookResult, now: int)
    requires Aligned(s) && BooksOK(s) && Belongs(s, r, runID, result)
    ensures Evolves(s, AfterMatch(s, r, runID, result, now))
  {
    hide ProjectionsSettled, ProjectionsMatch, ProjectionsMarked, ResultsOK, RunsGrow, LedgersGrow, ReportsGrow,
         Refer, AddOnce, NextSequence, Ledger, UniqueIDs, SummaryAgrees;
    assert RunOK(runID, s.runs[runID], s.events[runID], s.reports[runID]);
    ProjectedRun(s, r, runID, now);
    var n := |s.events[runID]| + 1;
    var run := s.runs[runID].(eventCount := n);
    GrownRun(s.runs, s.events, s.reports, runID, run, BuildWebhookRunEvent(r, runID, n, now),
             AddOnce(s.reports[runID].(run := run), WebhookCorrelationAssertion(r)));
    AddedStays(s.webhookResults, r.eventID, result);
  }

  lemma EvolvedRuns(s: Store, s': Store)
    requires Evolves(s, s')
    ensures RunsGrow(s.runs, s'.runs)
  {
    hide RunsGrow, LedgersGrow, ReportsGrow, CorrelationsStay, ProjectsStay, Stays, EffectsGrow, MessagesStay;
  }

  lemma ProjectedRest(s: Store, r: WebhookReceipt, runID: string, now: int)
    requires Aligned(s) && runID in s.runs
    ensures var s' := ProjectWebhook(s, r, runID, now); s' == s.(events := s'.events, runs := s'.runs, reports := s'.reports)
  {
  }

  lemma MatchConsistent(s: Store, r: WebhookReceipt, runID: string, result: WebhookResult, now: int)
    requires Consistent(s) && Belongs(s, r, runID, result)
    ensures Consistent(AfterMatch(s, r, runID, result, now)) && Evolves(s, AfterMatch(s, r, runID, result, now))
  {
    hide BooksOK, MailOK, FactsOK, RunsGrow, Evolves, ProjectWebhook, ResultTells;
    var s' := AfterMatch(s, r, runID, result, now);
    NamesOf(s);
    ProjectAligned(s, r, runID, now);
    MatchBooks(s, r, runID, result, now);
    MatchFacts(s, r, runID, result, now);
    MatchEvolves(s, r, runID, result, now);
    EvolvedRuns(s, s');
    ProjectedRest(s, r, runID, now);
    MatchKeys(s, s');
    MatchMail(s, s'.runs);
  }

  /** The three things that processing can do. */
  lemma ProcessOutcome(s: Store, eventID: string, now: int)
    requires Aligned(s) && (eventID in s.webhooks ==> s.webhooks[eventID].eventID == eventID)
    ensures var s' := ProcessStripeWebhook(s, eventID, now).0;
      if eventID in s.webhookResults || eventID !in s.webhooks then s' == s
      else
        var r := s.webhooks[eventID];
        var v := Classify(s, r);
        var result := ResultOf(s, r, v);
        match v
        case Settle(_, _) =>
          && s' == s.(webhookResults := s.webhookResults[eventID := result]) && result.status in {Unmatched, Ignored}
          && ResultTells(result, eventID, r, s.projectByRun)
        case Match(runID) => Belongs(s, r, runID, result) && s' == AfterMatch(s, r, runID, result, now)
  {
    hide Classify, ResultTells, AddOnce, NextSequence;
    if eventID in s.webhooks {
      OutcomeTells(s, s.webhooks[eventID]);
    }
  }

  lemma UnprocessedStays(s: Store, eventID: string, now: int)
    requires Aligned(s)
    ensures eventID in s.webhookResults || eventID !in s.webhooks ==> ProcessStripeWebhook(s, eventID, now).0 == s
  {
  }

  /** Processing a receipt settles it for good and disturbs nothing else. */
  lemma ProcessConsistent(s: Store, eventID: string, now: int)
    requires Consistent(s)
    ensures Consistent(ProcessStripeWebhook(s, eventID, now).0)
    ensures Evolves(s, ProcessStripeWebhook(s, eventID, now).0)
  {
    hide KeysOK, BooksOK, MailOK, FactsOK, Classify, ProjectWebhook, ProcessStripeWebhook, Evolves, ResultTells;
    NamesOf(s);
    NothingEvolves(s);
    UnprocessedStays(s, eventID, now);
    if eventID in s.webhooks && eventID !in s.webhookResults {
      ProcessOutcome(s, eventID, now);
      var r := s.webhooks[eventID];
      var v := Classify(s, r);
      match v {
        case Settle(status, code) =>
          SettleConsistent(s, eventID, ResultOf(s, r, v));
          SettleEvolves(s, eventID, ResultOf(s, r, v));
        case Match(runID) =>
          MatchConsistent(s, r, runID, ResultOf(s, r, v), now);
      }
    }
  }

  /** A receipt is processed once: the first answer is kept, and given ever after, marked as
      already processed, without a change. */
  lemma ProcessedOnce(s: Store, e: string, now: int, later: int)
    requires Consistent(s) && e in s.webhooks
    ensures var (s1, first) := ProcessStripeWebhook(s, e, now);
      && Aligned(s1) && first.Some? && (first.value.alreadyProcessed <==> e in s.webhookResults)
      && e in s1.webhookResults && s1.webhookResults[e] == first.value.(alreadyProcessed := false)
      && ProcessStripeWebhook(s1, e, later) == (s1, Some(first.value.(alreadyProcessed := true)))
  {
    hide KeysOK, BooksOK, MailOK, ProjectsOK, ProjectionsTell, Classify, ProjectWebhook, Aligned, IsSupportedStripeWebhookType;
    ProcessConsistent(s, e, now);
    NamesOf(s);
    NamesOf(ProcessStripeWebhook(s, e, now).0);
    assert e in s.webhookResults ==> ResultTells(s.webhookResults[e], e, s.webhooks[e], s.projectByRun);
  }
}
