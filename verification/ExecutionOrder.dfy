/** Order does not matter for executions either: however many workers interleave their loads,
    deliveries, verdicts, leases and crashes, what the receipts and verdicts of a stretch amount
    to is determined by which of them were processed in it. */
module ExecutionOrder {
  import opened Options
  import opened Domain
  import opened Identifiers
  import opened StoreSpec
  import opened Verification
  import opened Jobs
  import opened Consistency
  import opened System
  import opened Executions
  import opened Safety
  import opened OrderIndependence

  /** In every reachable state the steps that process are works: whatever other executions of
      the same jobs have done, a worker that loads a webhook job or records a verdict changes
      the store as one receipt or as the verdict of its run. */
  lemma StepsAreWorks(cfg: Config, s: Sys, a: Action, s': Sys)
    requires Good(s) && Safe(cfg, s) && Next(cfg, s, a, s') && (a.Load? || a.RecordVerdict?)
    ensures IsBusy(s, a.w) && var b := s.workers[a.w];
      if a.RecordVerdict? then b.phase.Delivering? && WorkStep(s.store, RunVerdict(b.phase.run.id), s.now, s'.store)
      else if b.message.topic == WebhookReceived then
        b.message.payload.Fields? && WorkStep(s.store, Webhook(b.message.payload.stripeEventID), s.now, s'.store)
      else s'.store == s.store
  {
    hide Consistent, CallersOK, AllPass, EffectsOwned, PublishedEffective, Effective, SameJob, Progress, Envelope, Deliveries,
         ProcessStripeWebhook, RecordVerification, Passes;
    AlignedOf(s.store);
    var b := s.workers[a.w];
    assert WorkerOK(cfg, s.store, b);
    if a.Load? {
      JobTopic(s.store, b.message);
    } else {
      var p := b.phase;
      FrozenParts(p.run, s.store.runs[p.run.id]);
      ProgressPasses(cfg.signer, Envelope(p.run, cfg.sha), p.fault, p.tally, EffectID(p.run.id) in s.store.merchantEffects);
    }
  }

  /** The event that a step processes, if any; and the run whose verdict it records. */
  function Loads(s: Sys, a: Action): set<string> {
    if a.Load? && IsBusy(s, a.w) && s.workers[a.w].message.topic == WebhookReceived && s.workers[a.w].message.payload.Fields?
    then {s.workers[a.w].message.payload.stripeEventID} else {}
  }

  function Records(s: Sys, a: Action): set<string> {
    if a.RecordVerdict? && IsBusy(s, a.w) && s.workers[a.w].phase.Delivering? then {s.workers[a.w].phase.run.id} else {}
  }

  /** What the actions from i up to j processed and recorded. */
  function Loaded(states: seq<Sys>, actions: seq<Action>, i: nat, j: nat): set<string>
    requires i <= j <= |actions| <= |states|
  {
    if i == j then {} else Loaded(states, actions, i, j - 1) + Loads(states[j - 1], actions[j - 1])
  }

  function Recorded(states: seq<Sys>, actions: seq<Action>, i: nat, j: nat): set<string>
    requires i <= j <= |actions| <= |states|
  {
    if i == j then {} else Recorded(states, actions, i, j - 1) + Records(states[j - 1], actions[j - 1])
  }

  /** No run and no receipt is new. */
  predicate SameStock(s: Store, s': Store) {
    s'.runs.Keys == s.runs.Keys && s'.webhooks == s.webhooks
  }

  /** Stores that differ at most in outbox, merchant effects and the run counter. */
  predicate SameBooks(s: Store, s': Store) {
    s'.(queue := s.queue, merchantEffects := s.merchantEffects, nextRun := s.nextRun) == s
  }

  lemma CreationKeepsBooks(s: Store, q: Request, b: RunBundle, now: int)
    requires Aligned(s) && b.run.id !in s.runs
    ensures var s' := CreateRun(s, q.scope, q.keyHash, q.requestHash, b, now).0; SameStock(s, s') ==> s' == s
  {
    hide Insert, Refer;
    InsertedKeys(s, q, b, now);
  }

  lemma CreationsKeepBooks(cfg: Config, s: Sys, a: Action, s': Sys)
    requires Good(s) && Next(cfg, s, a, s') && !Plain(a) && SameStock(s.store, s'.store)
    ensures SameBooks(s.store, s'.store)
  {
    hide Consistent, CreateRun, Aligned, RunNames, WellFormedBundle, RunID;
    match a {
      case Allocate(c) =>
      case Create(c, b) =>
        assert Executions.Holds(s.callers, c, b.run.id);
        CreationKeepsBooks(s.store, s.callers[c].request, b, s.now);
      case Seed(n, k, h, b) => CreationKeepsBooks(s.store, Request(Public, k, h), b, s.now);
    }
  }

  lemma IngressKeepsBooks(s: Store, r: WebhookReceipt, now: int)
    ensures SameStock(s, MarkWebhookSeen(s, r, now).0) ==> MarkWebhookSeen(s, r, now).0 == s
  {
  }

  lemma SameBooksCases(s: Store, t: Outbox.Table, effects: map<string, int>)
    ensures SameBooks(s, s) && SameBooks(s, WithTable(s, t)) && SameBooks(s, s.(merchantEffects := effects))
  {
  }

  lemma PlainKeepsBooks(cfg: Config, s: Sys, a: Action, s': Sys)
    requires Next(cfg, s, a, s') && Plain(a) && !a.Load? && !a.RecordVerdict? && !a.Ingress?
    ensures SameBooks(s.store, s'.store)
  {
    hide Outbox.Claims, Outbox.Heartbeat, Outbox.Complete, Outbox.Fail, Outbox.Retry, Deliver, RetryDelay, WithTable, SameBooks;
    SameBooksCases(s.store, Items(s'), s'.store.merchantEffects);
    if a.Beat? {
      var b := s.workers[a.w];
      var t := Outbox.Heartbeat(Items(s), b.message.id, cfg.owner(a.w), s.now).0;
      SameBooksCases(s.store, t, s.store.merchantEffects);
    }
  }

  /** A step that neither loads nor records changes nothing that works change. */
  lemma OthersKeepBooks(cfg: Config, s: Sys, a: Action, s': Sys)
    requires Good(s) && Next(cfg, s, a, s') && !a.Load? && !a.RecordVerdict? && SameStock(s.store, s'.store)
    ensures SameBooks(s.store, s'.store)
  {
    hide Consistent, CallersOK, SameStock, MarkWebhookSeen, ClaimStep, BeatStep, ConcludeStep, CreateStep, SeedStep,
         AllocateStep, ReplayStep, DeliverStep;
    if !Plain(a) {
      CreationsKeepBooks(cfg, s, a, s');
    } else if a.Ingress? {
      IngressKeepsBooks(s.store, a.receipt, s.now);
    } else {
      PlainKeepsBooks(cfg, s, a, s');
    }
  }

  lemma SameBooksFrom(s0: Store, s: Store, s': Store, es: set<string>, vs: set<string>)
    requires From(s0, s, es, vs) && SameBooks(s, s')
    ensures From(s0, s', es, vs)
  {
    hide RunsFrom, ResultsFrom;
    SameRuns(s0, s, s', es, vs);
    SameResults(s0, s, s', es);
  }

  lemma StepFrom(cfg: Config, s0: Store, s: Sys, a: Action, s': Sys, es: set<string>, vs: set<string>)
    requires Good(s) && Safe(cfg, s) && Next(cfg, s, a, s') && SameStock(s.store, s'.store)
    requires From(s0, s.store, es, vs)
    ensures From(s0, s'.store, es + Loads(s, a), vs + Records(s, a))
  {
    hide Consistent, CallersOK, Safe, From, Next, SameBooks, SameStock, ProcessStripeWebhook, RecordVerification;
    AlignedOf(s.store);
    if a.Load? || a.RecordVerdict? {
      StepsAreWorks(cfg, s, a, s');
      var b := s.workers[a.w];
      if a.RecordVerdict? {
        VerdictFrom(s0, s.store, es, vs, b.phase.run.id);
        assert es + Loads(s, a) == es;
      } else if b.message.topic == WebhookReceived {
        WebhookFrom(s0, s.store, es, vs, b.message.payload.stripeEventID, s.now);
        assert vs + Records(s, a) == vs;
      } else {
        assert es + Loads(s, a) == es && vs + Records(s, a) == vs;
      }
    } else {
      OthersKeepBooks(cfg, s, a, s');
      SameBooksFrom(s0, s.store, s'.store, es, vs);
      assert es + Loads(s, a) == es && vs + Records(s, a) == vs;
    }
  }

  /** Between two stores with the same stock lies none with another. */
  lemma StockBetween(a: Store, b: Store, c: Store)
    requires Evolves(a, b) && Evolves(b, c) && SameStock(a, c)
    ensures SameStock(a, b) && SameStock(b, c)
  {
    hide LedgersGrow, ReportsGrow, MessagesStay, CorrelationsStay, EffectsGrow;
    assert a.runs.Keys <= b.runs.Keys <= c.runs.Keys;
    assert forall e :: e in b.webhooks ==> e in a.webhooks;
    assert b.webhooks.Keys == a.webhooks.Keys;
  }

  lemma {:induction false} ExecutionAmountsTo(cfg: Config, states: seq<Sys>, actions: seq<Action>, i: nat, j: nat)
    requires Execution(cfg, states, actions) && NamedWorkers(cfg) && i <= j < |states|
    requires TamperDetected(cfg, states[j].store.runs) && SameStock(states[i].store, states[j].store)
    ensures Good(states[j])
    ensures From(states[i].store, states[j].store, Loaded(states, actions, i, j), Recorded(states, actions, i, j))
  {
    hide Good, Safe, From, Next, TamperDetected, Evolves, SameStock, Loads, Records;
    Reachable(cfg, states, actions, j);
    if i == j {
      GoodStarts(states[i]);
    } else {
      var s := states[j - 1];
      HistoryGrows(cfg, states, actions, i, j - 1);
      HistoryGrows(cfg, states, actions, j - 1, j);
      StockBetween(states[i].store, s.store, states[j].store);
      GrowsFrom(s.store, states[j].store);
      DetectedBefore(cfg, s.store.runs, states[j].store.runs);
      ExecutionAmountsTo(cfg, states, actions, i, j - 1);
      AlwaysSafe(cfg, states, actions, j - 1);
      assert NextAt(cfg, states, actions, j - 1);
      StepFrom(cfg, states[i].store, s, actions[j - 1], states[j],
               Loaded(states, actions, i, j - 1), Recorded(states, actions, i, j - 1));
    }
  }

  lemma GoodStarts(s: Sys)
    requires Good(s)
    ensures From(s.store, s.store, {}, {})
  {
    hide Consistent, From;
    StartsFrom(s.store);
  }

  lemma GoodKeys(s: Sys)
    requires Good(s)
    ensures s.store.webhookResults.Keys <= s.store.webhooks.Keys && Aligned(s.store)
  {
    hide Consistent, Aligned;
    ResultKeys(s.store);
  }

  /** Two executions, of any numbers of workers, that start from the same store at some moment
      and reach later moments with no new run or receipt: if they processed the same receipts
      and recorded the verdicts of the same runs in between, in whatever order and however
      interleaved, then runs and results are equal, reports agree up to assertion order, and
      ledgers up to the order and the numbers of what was appended. */
  lemma ExecutionOrderDoesNotMatter(cfg1: Config, states1: seq<Sys>, actions1: seq<Action>, i1: nat, j1: nat,
                                    cfg2: Config, states2: seq<Sys>, actions2: seq<Action>, i2: nat, j2: nat)
    requires Execution(cfg1, states1, actions1) && NamedWorkers(cfg1) && i1 <= j1 < |states1|
    requires Execution(cfg2, states2, actions2) && NamedWorkers(cfg2) && i2 <= j2 < |states2|
    requires TamperDetected(cfg1, states1[j1].store.runs) && TamperDetected(cfg2, states2[j2].store.runs)
    requires states1[i1].store == states2[i2].store
    requires SameStock(states1[i1].store, states1[j1].store) && SameStock(states2[i2].store, states2[j2].store)
    requires Loaded(states1, actions1, i1, j1) == Loaded(states2, actions2, i2, j2)
    requires Recorded(states1, actions1, i1, j1) == Recorded(states2, actions2, i2, j2)
    ensures SameOutcome(states1[i1].store, states1[j1].store, states2[j2].store)
  {
    hide Next, Good, From, TamperDetected, SameStock, SameOutcome, Aligned;
    ExecutionAmountsTo(cfg1, states1, actions1, i1, j1);
    ExecutionAmountsTo(cfg2, states2, actions2, i2, j2);
    Reachable(cfg1, states1, actions1, i1);
    GoodKeys(states1[i1]);
    GoodKeys(states1[j1]);
    GoodKeys(states2[j2]);
    SameFrom(states1[i1].store, states1[j1].store, states2[j2].store,
             Loaded(states1, actions1, i1, j1), Recorded(states1, actions1, i1, j1));
  }
}
