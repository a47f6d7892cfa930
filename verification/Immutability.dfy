/** What a run may still go through once it is terminal: exactly when a step of the system
    changes it, and an execution in which that happens. */
module Immutability {
  import opened Options
  import opened Hex
  import opened Text
  import opened Identifiers
  import opened Domain
  import opened Outbox
  import opened StoreSpec
  import opened Jobs
  import opened Consistency
  import opened System
  import opened Executions
  import opened Service
  import opened Timeline

  // ----- processing -----

  predicate Pending(s: Store, e: string) {
    e in s.webhooks && e !in s.webhookResults
  }

  /** Processing a receipt changes a run exactly when the receipt is pending and belongs to
      it, and then in its event count alone. */
  lemma RunChangesOnlyByMatch(s: Store, e: string, now: int, r: string)
    requires Aligned(s) && r in s.runs && s.runs[r].eventCount == |s.events[r]|
    ensures r in ProcessStripeWebhook(s, e, now).0.runs
    ensures ProcessStripeWebhook(s, e, now).0.runs[r]
         == if Pending(s, e) && Classify(s, s.webhooks[e]) == Match(r)
            then s.runs[r].(eventCount := s.runs[r].eventCount + 1) else s.runs[r]
  {
    hide Classify, Refer, ProcessStripeWebhook, ProjectWebhook;
    ProcessedRuns(s, e, now);
  }

  lemma ProcessedRuns(s: Store, e: string, now: int)
    requires Aligned(s)
    ensures ProcessStripeWebhook(s, e, now).0.runs
         == if Pending(s, e) && Classify(s, s.webhooks[e]).Match?
            then ProjectedRuns(s, Classify(s, s.webhooks[e]).runID) else s.runs
  {
    hide Classify, AddOnce, NextSequence;
  }

  function ProjectedRuns(s: Store, r: string): Runs
    requires Aligned(s)
  {
    if r in s.runs then s.runs[r := s.runs[r].(eventCount := |s.events[r]| + 1)] else s.runs
  }

  // ----- steps -----

  /** A worker loads a valid webhook job whose receipt is pending and belongs to the run. */
  ghost predicate LoadsMatch(s: Sys, a: Action, r: string) {
    a.Load? && IsBusy(s, a.w) && s.workers[a.w].phase == Loading &&
    var m := s.workers[a.w].message;
    && m.topic == WebhookReceived && WebhookJobValid(m) && Pending(s.store, m.payload.stripeEventID)
    && Classify(s.store, s.store.webhooks[m.payload.stripeEventID]) == Match(r)
  }

  lemma CountOf(s: Store, r: string)
    requires Consistent(s) && r in s.runs
    ensures r in s.events && s.runs[r].eventCount == |s.events[r]|
  {
    hide KeysOK, MailOK, ProjectionsSettled, ProjectionsMatch, ProjectionsMarked, ResultsOK;
    assert RunOK(r, s.runs[r], s.events[r], s.reports[r]);
  }

  lemma LoadChanges(cfg: Config, s: Sys, a: Action, s': Sys, r: string)
    requires Consistent(s.store) && Next(cfg, s, a, s') && a.Load? && r in s.store.runs
    ensures r in s'.store.runs
    ensures s'.store.runs[r]
         == if LoadsMatch(s, a, r) then s.store.runs[r].(eventCount := s.store.runs[r].eventCount + 1) else s.store.runs[r]
  {
    hide Consistent, Classify, ProcessStripeWebhook, Prepared;
    AlignedOf(s.store);
    CountOf(s.store, r);
    var m := s.workers[a.w].message;
    if m.topic == WebhookReceived && WebhookJobValid(m) {
      RunChangesOnlyByMatch(s.store, m.payload.stripeEventID, s.now, r);
    }
  }

  lemma CreationKeepsRun(s: Store, q: Request, b: RunBundle, now: int, r: string)
    requires Aligned(s) && r in s.runs && b.run.id !in s.runs
    ensures var s' := CreateRun(s, q.scope, q.keyHash, q.requestHash, b, now).0; r in s'.runs && s'.runs[r] == s.runs[r]
  {
    hide Refer, Enqueued;
  }

  lemma PlainKeepsRuns(cfg: Config, s: Sys, a: Action, s': Sys)
    requires Next(cfg, s, a, s') && Plain(a) && !a.Load?
    ensures s'.store.runs == s.store.runs
  {
    hide Claims, Heartbeat, Enqueued, AddOnce, Aligned;
  }

  lemma OthersKeepRuns(cfg: Config, s: Sys, a: Action, s': Sys, r: string)
    requires Good(s) && Next(cfg, s, a, s') && !a.Load? && r in s.store.runs
    ensures r in s'.store.runs && s'.store.runs[r] == s.store.runs[r]
  {
    hide Next, Consistent, CallersOK;
    if Plain(a) {
      PlainKeepsRuns(cfg, s, a, s');
    } else {
      CreationsKeepRuns(cfg, s, a, s', r);
    }
  }

  lemma CreationsKeepRuns(cfg: Config, s: Sys, a: Action, s': Sys, r: string)
    requires Good(s) && Next(cfg, s, a, s') && !Plain(a) && r in s.store.runs
    ensures r in s'.store.runs && s'.store.runs[r] == s.store.runs[r]
  {
    hide Consistent, CreateRun, Enqueued, Aligned, RunNames, WellFormedBundle, RunID;
    match a {
      case Allocate(c) =>
      case Create(c, b) =>
        assert Executions.Holds(s.callers, c, b.run.id);
        CreationKeepsRun(s.store, s.callers[c].request, b, s.now, r);
      case Seed(n, k, h, b) => CreationKeepsRun(s.store, Request(Public, k, h), b, s.now, r);
    }
  }

  /** The exact condition, for every step of the system in every reachable state: a stored run
      changes if and only if a worker loads a valid webhook job whose receipt is pending and
      belongs to that run; and what changes is its event count, by one. */
  lemma RunChangesIff(cfg: Config, s: Sys, a: Action, s': Sys, r: string)
    requires Good(s) && Next(cfg, s, a, s') && r in s.store.runs
    ensures r in s'.store.runs
    ensures s'.store.runs[r] != s.store.runs[r] <==> LoadsMatch(s, a, r)
    ensures LoadsMatch(s, a, r) ==> s'.store.runs[r] == s.store.runs[r].(eventCount := s.store.runs[r].eventCount + 1)
  {
    hide Next, Consistent, CallersOK, LoadsMatch;
    if a.Load? {
      LoadChanges(cfg, s, a, s', r);
    } else {
      OthersKeepRuns(cfg, s, a, s', r);
      OnlyLoads(s, a, r);
    }
  }

  lemma OnlyLoads(s: Sys, a: Action, r: string)
    ensures LoadsMatch(s, a, r) ==> a.Load?
  {
  }

  // ----- an execution -----

  /** A receipt that names the object and the correlation of a bundle. */
  predicate Fits(b: RunBundle, receipt: WebhookReceipt) {
    && receipt.eventID != "" && IsSupportedStripeWebhookType(receipt.eventType)
    && receipt.stripeObjectID == b.run.stripeObjectID != "" && receipt.correlationID == b.correlationID != ""
  }

  const SERVED := Sys(EMPTY, map[], map[], 0, Log(map[], map[]))

  /** The receipt arrives and a worker claims its job. */
  lemma Received(cfg: Config, receipt: WebhookReceipt) returns (s1: Sys, s2: Sys, m: OutboxMessage)
    requires receipt.eventID != "" && receipt.eventType != ""
    ensures Next(cfg, SERVED, Ingress(receipt), s1) && Next(cfg, s1, Claim(0, Some(m)), s2)
    ensures s2.store == EMPTY.(webhooks := map[receipt.eventID := receipt], queue := s2.store.queue)
    ensures s2.workers == map[0 := Busy(m, Loading, false, 0)] && s2.callers == map[] && s2.now == 0
    ensures m.topic == WebhookReceived && WebhookJobValid(m) && m.payload.stripeEventID == receipt.eventID
  {
    hide OutboxID;
    var id := OutboxID(1);
    var item := Ready(id, WebhookReceived, receipt.eventID, WebhookPayload(receipt), 0);
    s1 := SERVED.(store := MarkWebhookSeen(EMPTY, receipt, 0).0);
    assert s1.store == EMPTY.(webhooks := map[receipt.eventID := receipt], queue := Queue(map[id := item], 2));
    m := Leased(item, cfg.owner(0), 0).message;
    var t := Items(s1)[id := Leased(item, cfg.owner(0), 0)];
    s2 := s1.(store := WithTable(s1.store, t), workers := map[0 := Busy(m, Loading, false, 0)]);
    assert s1.workers[0 := Busy(m, Loading, false, 0)] == s2.workers;
    assert WebhookReceived in JOB_TOPICS by { assert JOB_TOPICS[2] == WebhookReceived; }
    assert FirstClaimable(Items(s1), id, cfg.lease, JOB_TOPICS, 0);
  }

  /** Meanwhile a caller asks, misses, allocates and creates. */
  lemma Allocated(cfg: Config, s: Sys, q: Request) returns (s3: Sys, s4: Sys, s5: Sys)
    requires s.callers == map[] && s.store == EMPTY.(webhooks := s.store.webhooks, queue := s.store.queue)
    ensures Next(cfg, s, Ask(0, q), s3) && Next(cfg, s3, TryReplay(0), s4) && Next(cfg, s4, Allocate(0), s5)
    ensures s5 == s.(store := s.store.(nextRun := 5), callers := map[0 := Holding(q, RunID(4))])
  {
    hide RunID;
    s3 := s.(callers := s.callers[0 := Asked(q)]);
    s4 := s3.(callers := s3.callers[0 := Missed(q)]);
    s5 := s4.(store := NextRunID(s4.store).0, callers := s4.callers[0 := Holding(q, RunID(4))]);
  }

  lemma Created(cfg: Config, s: Sys, q: Request, b: RunBundle) returns (s6: Sys)
    requires s.callers == map[0 := Holding(q, RunID(4))] && BuiltFor(b, RunID(4))
    requires s.store == EMPTY.(webhooks := s.store.webhooks, queue := s.store.queue, nextRun := 5)
    ensures Next(cfg, s, Create(0, b), s6) && s6.workers == s.workers && s6.now == s.now && b.run.id == RunID(4)
    ensures s6.store.runs == map[b.run.id := b.run] && s6.store.correlationByRun == map[b.run.id := b.correlationID]
    ensures s6.store.webhooks == s.store.webhooks && s6.store.webhookResults == map[]
  {
    hide RunID, Enqueued, WellFormedBundle, SupportedFault, TenantKey;
    assert Replay(s.store, q.scope, q.keyHash, q.requestHash) == Missing;
    var store := Insert(s.store, q.scope, q.keyHash, q.requestHash, b, s.now);
    s6 := s.(store := store, callers := s.callers[0 := Answered(q, Granted(b.run, false))]);
    assert s.store.runs[b.run.id := b.run] == map[b.run.id := b.run];
    assert s.store.correlationByRun[b.run.id := b.correlationID] == map[b.run.id := b.correlationID];
  }

  /** The run is the only one that carries object and correlation. */
  lemma MatchesTheRun(s: Store, b: RunBundle, receipt: WebhookReceipt)
    requires Fits(b, receipt) && s.runs == map[b.run.id := b.run]
    requires s.correlationByRun == map[b.run.id := b.correlationID]
    ensures Classify(s, receipt) == Match(b.run.id)
  {
    hide IsSupportedStripeWebhookType;
    MatchedToTheOnlyCarrier(s, receipt, b.run.id);
  }

  lemma LoadsNext(cfg: Config, s: Sys, w: nat) returns (s': Sys)
    requires IsBusy(s, w) && s.workers[w].phase == Loading && Aligned(s.store)
    requires s.workers[w].message.topic == WebhookReceived && WebhookJobValid(s.workers[w].message)
    ensures Next(cfg, s, Load(w), s')
  {
    hide ProcessStripeWebhook;
    var (store, result) := ProcessStripeWebhook(s.store, s.workers[w].message.payload.stripeEventID, s.now);
    s' := s.(store := store, workers := AtPhase(s, w, Finished(if result.Some? then Success else Transient)));
  }

  lemma GoodAfterTwo(cfg: Config, s: Sys, a: Action, x: Sys, b: Action, t: Sys)
    requires Good(s) && NamedWorkers(cfg) && Next(cfg, s, a, x) && Next(cfg, x, b, t)
    ensures Good(x) && Good(t)
  {
    hide Good, Next;
    StepGood(cfg, s, a, x);
    StepGood(cfg, x, b, t);
  }

  /** For every bundle and every receipt that fits it there is an execution that changes the
      run, which was terminal from its creation. */
  lemma TerminalRunChanges(cfg: Config, q: Request, b: RunBundle, receipt: WebhookReceipt)
    returns (states: seq<Sys>, actions: seq<Action>)
    requires NamedWorkers(cfg) && BuiltFor(b, RunID(4)) && Fits(b, receipt)
    ensures Execution(cfg, states, actions) && |actions| == 7
    ensures var r := RunID(4);
      && r in states[6].store.runs && r in states[7].store.runs
      && states[6].store.runs[r] == b.run && IsTerminalRun(b.run)
      && states[7].store.runs[r] == b.run.(eventCount := b.run.eventCount + 1)
  {
    hide Next, Good, LoadsMatch, RunID, EMPTY, Fits, Classify;
    FitsType(b, receipt);
    var s1, s2, m := Received(cfg, receipt);
    var s3, s4, s5 := Allocated(cfg, s2, q);
    var s6 := Created(cfg, s5, q, b);
    StartIsGood();
    GoodAfterTwo(cfg, SERVED, Ingress(receipt), s1, Claim(0, Some(m)), s2);
    GoodAfterTwo(cfg, s2, Ask(0, q), s3, TryReplay(0), s4);
    GoodAfterTwo(cfg, s4, Allocate(0), s5, Create(0, b), s6);
    GoodAligned(s6);
    MatchesTheRun(s6.store, b, receipt);
    var s7 := LoadsNext(cfg, s6, 0);
    ReceiptMatches(s6, receipt, m, b);
    RunChangesIff(cfg, s6, Load(0), s7, b.run.id);
    states := [SERVED, s1, s2, s3, s4, s5, s6, s7];
    actions := [Ingress(receipt), Claim(0, Some(m)), Ask(0, q), TryReplay(0), Allocate(0), Create(0, b), Load(0)];
    StartIsInit();
    forall i: nat | i < |actions|
      ensures NextAt(cfg, states, actions, i)
    {
    }
  }

  lemma FitsType(b: RunBundle, receipt: WebhookReceipt)
    requires Fits(b, receipt)
    ensures receipt.eventID != "" && receipt.eventType != ""
  {
  }

  lemma StartIsGood()
    ensures Good(SERVED)
  {
    hide Consistent;
    EmptyConsistent();
  }

  lemma StartIsInit()
    ensures Init(SERVED)
  {
  }

  lemma GoodAligned(s: Sys)
    requires Good(s)
    ensures Aligned(s.store)
  {
    hide Consistent;
    AlignedOf(s.store);
  }

  lemma ReceiptMatches(s: Sys, receipt: WebhookReceipt, m: OutboxMessage, b: RunBundle)
    requires s.workers == map[0 := Busy(m, Loading, false, 0)]
    requires m.topic == WebhookReceived && WebhookJobValid(m) && m.payload.stripeEventID == receipt.eventID
    requires s.store.webhooks == map[receipt.eventID := receipt] && s.store.webhookResults == map[]
    requires Classify(s.store, receipt) == Match(b.run.id)
    ensures LoadsMatch(s, Load(0), b.run.id)
  {
    hide Classify;
  }

  // ----- concrete input -----

  /** The receipt of a success of a payment intent. */
  function SuccessOf(intent: Intent, correlationID: string, digest: Hash): WebhookReceipt {
    WebhookReceipt("evt_1", "payment_intent.succeeded", digest, digest, Some(0), intent.id, "succeeded", correlationID)
  }

  /** Any Stripe run, as the service builds it: it passed with nine events when it was created,
      and has ten after the worker processed the success of its own payment intent. */
  method StripeRunChanges(ghost cfg: Config, q: Request, amount: int, currency: string, intent: Intent, correlationID: string,
                          digest: Hash, now: int)
    returns (bundle: RunBundle, ghost states: seq<Sys>, ghost actions: seq<Action>)
    requires NamedWorkers(cfg) && intent.id != "" && correlationID != ""
    ensures bundle.run.stripeObjectID == intent.id && bundle.run.fault == Duplicate && |bundle.report.assertions| == 4
    ensures Execution(cfg, states, actions) && |actions| == 7
    ensures var r := RunID(4);
      && r in states[6].store.runs && r in states[7].store.runs
      && states[6].store.runs[r] == bundle.run && bundle.run.status == Passed && bundle.run.eventCount == 9
      && states[7].store.runs[r] == bundle.run.(eventCount := 10)
  {
    hide RunID, BuiltFor, Execution;
    RunNameIsLong();
    bundle := StripeBundle(RunID(4), 4, amount, currency, intent, correlationID, now);
    states, actions := TerminalRunChanges(cfg, q, bundle, SuccessOf(intent, correlationID, digest));
  }

  lemma RunNameIsLong()
    ensures |RunID(4)| >= 4
  {
  }

  /** One such run: 19.99 dollars, and the correlation that the service gives to its key. */
  method TerminalRunCanChange(ghost cfg: Config, sha: string -> Hash)
    returns (bundle: RunBundle, ghost states: seq<Sys>, ghost actions: seq<Action>)
    requires NamedWorkers(cfg)
    ensures Execution(cfg, states, actions) && |actions| == 7
    ensures var r := RunID(4);
      && r in states[6].store.runs && r in states[7].store.runs
      && states[6].store.runs[r] == bundle.run && IsTerminalRun(bundle.run)
      && states[6].store.runs[r].eventCount == 9 && states[7].store.runs[r].eventCount == 10
  {
    hide RunID, Execution;
    var key, body := "order-42", "{}";
    var request := Request(Public, sha(key), sha(body));
    bundle, states, actions := StripeRunChanges(
      cfg, request, 1999, "usd", Intent("pi_3", 1999, "usd"), CorrelationOf(sha, key), sha(body), 0);
  }
}
