/** What holds along every execution whatever the workers and callers do: the repository
    stays consistent and only grows. */
module Executions {
  import opened Options
  import opened Hex
  import opened Identifiers
  import opened Domain
  import opened Outbox
  import opened StoreSpec
  import opened Consistency
  import opened System

  /** A caller that has allocated a run identifier but not created the run yet. */
  predicate Holds(callers: map<nat, Caller>, c: nat, id: string) {
    c in callers && callers[c].Holding? && callers[c].id == id
  }

  /** The identifiers that callers hold are allocated, unused, not reserved for seeds, and
      not shared. */
  ghost predicate CallersOK(callers: map<nat, Caller>, runIDs: set<string>, next: nat) {
    && (forall c, id :: Holds(callers, c, id) ==>
          id in RunNames(next) && id !in runIDs && id != "" && id !in RunNames(4))
    && (forall c, d, id :: Holds(callers, c, id) && Holds(callers, d, id) ==> c == d)
  }

  ghost predicate Good(s: Sys) {
    Consistent(s.store) && CallersOK(s.callers, s.store.runs.Keys, s.store.nextRun)
  }

  // ----- steps that only move leases -----

  lemma TableStep(s: Store, op: Op, t: Table, a: Answer)
    requires Consistent(s) && Step(s.queue, op, s.queue.(table := t), a) && Named(op) && !op.PutOp?
    ensures Consistent(WithTable(s, t)) && Evolves(s, WithTable(s, t))
  {
    LeaseStep(s.queue, op, s.queue.(table := t), a);
    LeaseConsistent(s, s.queue.(table := t));
    LeaseEvolves(s, s.queue.(table := t));
  }

  lemma AlignedOf(s: Store)
    requires Consistent(s)
    ensures Aligned(s) && s.nextRun >= 4 && s.runs.Keys <= RunNames(s.nextRun)
  {
  }

  lemma KeyedOf(s: Store)
    requires Consistent(s)
    ensures Keyed(s.queue.table)
  {
  }

  lemma ClaimGood(cfg: Config, s: Sys, w: nat, claimed: Option<OutboxMessage>, s': Sys)
    requires Consistent(s.store) && NamedWorkers(cfg) && ClaimStep(cfg, s, w, claimed, s')
    ensures Consistent(s'.store) && Evolves(s.store, s'.store)
  {
    TableStep(s.store, ClaimOp(cfg.owner(w), cfg.lease, Jobs.JOB_TOPICS, s.now), Items(s'), Claimed(claimed));
  }

  lemma BeatGood(cfg: Config, s: Sys, w: nat, failed: bool, s': Sys)
    requires Consistent(s.store) && NamedWorkers(cfg) && BeatStep(cfg, s, w, failed, s')
    ensures Consistent(s'.store) && Evolves(s.store, s'.store)
  {
    NothingEvolves(s.store);
    var id, owner := s.workers[w].message.id, cfg.owner(w);
    var (t, alive) := Heartbeat(Items(s), id, owner, s.now);
    TableStep(s.store, HeartbeatOp(id, owner, s.now), t, Held(alive));
  }

  lemma ConcludeGood(cfg: Config, s: Sys, w: nat, s': Sys)
    requires Consistent(s.store) && NamedWorkers(cfg) && ConcludeStep(cfg, s, w, s')
    ensures Consistent(s'.store) && Evolves(s.store, s'.store)
  {
    var b := s.workers[w];
    var id, owner, delay := b.message.id, cfg.owner(w), Jobs.RetryDelay(b.message.attempts);
    match FinalOutcome(b) {
      case Success =>
        TableStep(s.store, CompleteOp(id, owner, s.now), Items(s'), Held(Complete(Items(s), id, owner).1));
      case Permanent =>
        TableStep(s.store, FailOp(id, owner, s.now), Items(s'), Held(Fail(Items(s), id, owner).1));
      case Transient =>
        if b.message.attempts >= cfg.maxAttempts {
          TableStep(s.store, FailOp(id, owner, s.now), Items(s'), Held(Fail(Items(s), id, owner).1));
        } else {
          TableStep(s.store, RetryOp(id, owner, delay, s.now), Items(s'), Held(Retry(Items(s), id, owner, delay, s.now).1));
        }
    }
  }

  // ----- steps that process -----

  lemma LoadGood(cfg: Config, s: Sys, w: nat, s': Sys)
    requires Consistent(s.store) && LoadStep(cfg, s, w, s')
    ensures Consistent(s'.store) && Evolves(s.store, s'.store)
    ensures s'.store.runs.Keys == s.store.runs.Keys && s'.store.nextRun == s.store.nextRun
  {
    NothingEvolves(s.store);
    var m := s.workers[w].message;
    if m.topic == WebhookReceived && Jobs.WebhookJobValid(m) {
      ProcessGood(s.store, m.payload.stripeEventID, s.now);
    }
  }

  lemma ProcessGood(s: Store, e: string, now: int)
    requires Consistent(s)
    ensures var s' := ProcessStripeWebhook(s, e, now).0;
      Consistent(s') && Evolves(s, s') && s'.runs.Keys == s.runs.Keys && s'.nextRun == s.nextRun
  {
    ProcessConsistent(s, e, now);
    ProcessKeys(s, e, now);
  }

  lemma ProcessKeys(s: Store, e: string, now: int)
    requires Aligned(s)
    ensures var s' := ProcessStripeWebhook(s, e, now).0; s'.runs.Keys == s.runs.Keys && s'.nextRun == s.nextRun
  {
    if e in s.webhooks && e !in s.webhookResults {
      var r := s.webhooks[e];
      var v := Classify(s, r);
      if v.Match? {
        ProjectAligned(s, r, v.runID, now);
      }
    }
  }

  lemma DeliverGood(cfg: Config, s: Sys, w: nat, s': Sys)
    requires Consistent(s.store) && DeliverStep(cfg, s, w, s')
    ensures Consistent(s'.store) && Evolves(s.store, s'.store)
  {
    NothingEvolves(s.store);
    var d := s.workers[w].phase.queue[0];
    EffectConsistent(s.store, d.effectID, d.sequence);
  }

  // ----- steps of callers -----

  lemma InsertedKeys(s: Store, q: Request, b: RunBundle, now: int)
    ensures var s' := Insert(s, q.scope, q.keyHash, q.requestHash, b, now);
      s'.nextRun == s.nextRun && s'.runs.Keys == s.runs.Keys + {b.run.id}
  {
    assert s.runs[b.run.id := b.run].Keys == s.runs.Keys + {b.run.id};
  }

  lemma InsertGood(s: Store, q: Request, b: RunBundle, now: int)
    requires Consistent(s) && BuiltFor(b, b.run.id)
    requires b.run.id !in s.runs && b.run.id in RunNames(s.nextRun) && b.run.id != ""
    ensures var s' := CreateRun(s, q.scope, q.keyHash, q.requestHash, b, now).0;
      && Consistent(s') && Evolves(s, s') && s'.nextRun == s.nextRun
      && (s'.runs.Keys == s.runs.Keys || s'.runs.Keys == s.runs.Keys + {b.run.id})
  {
    hide Consistent, Evolves, RunNames, WellFormedBundle, SupportedFault, IsRunTopic, Insert;
    AlignedOf(s);
    NothingEvolves(s);
    if Replay(s, q.scope, q.keyHash, q.requestHash) == Missing {
      InsertConsistent(s, q.scope, q.keyHash, q.requestHash, b, now);
      InsertedKeys(s, q, b, now);
    }
  }

  lemma SeedNamed(n: nat, next: nat)
    requires 1 <= n <= 3 && next >= 4
    ensures RunID(n) in RunNames(next) && RunID(n) in RunNames(4) && RunID(n) != ""
  {
  }

  lemma NamesNested(m: nat, n: nat)
    requires m <= n
    ensures RunNames(m) <= RunNames(n)
  {
  }

  lemma RunIDNotEmpty(n: nat)
    ensures RunID(n) != ""
  {
    assert |RunID(n)| >= 4;
  }

  /** Allocation hands out an identifier that nobody holds and no run has. */
  lemma AllocateGood(s: Sys, c: nat, s': Sys)
    requires Good(s) && AllocateStep(s, c, s')
    ensures Good(s') && Evolves(s.store, s'.store)
  {
    hide Consistent, Evolves, RunNames, RunID;
    AlignedOf(s.store);
    AllocateConsistent(s.store);
    var id := RunID(s.store.nextRun);
    NamesNested(4, s.store.nextRun);
    RunIDNotEmpty(s.store.nextRun);
    forall d, x | Holds(s'.callers, d, x)
      ensures if d == c then x == id else Holds(s.callers, d, x)
    {
    }
  }

  /** A held identifier leaves the caller when it becomes a run. */
  lemma CreateGood(s: Sys, c: nat, b: RunBundle, s': Sys)
    requires Good(s) && CreateStep(s, c, b, s')
    ensures Good(s') && Evolves(s.store, s'.store)
  {
    hide Consistent, Evolves;
    assert Holds(s.callers, c, b.run.id);
    InsertGood(s.store, s.callers[c].request, b, s.now);
    forall d, x | Holds(s'.callers, d, x)
      ensures Holds(s.callers, d, x) && x != b.run.id
    {
    }
  }

  lemma SeedGood(s: Sys, n: nat, keyHash: Hash, requestHash: Hash, b: RunBundle, s': Sys)
    requires Good(s) && SeedStep(s, n, keyHash, requestHash, b, s')
    ensures Good(s') && Evolves(s.store, s'.store)
  {
    hide Consistent, Evolves, RunNames, RunID, CreateRun, WellFormedBundle, SupportedFault, IsRunTopic;
    AlignedOf(s.store);
    SeedNamed(n, s.store.nextRun);
    InsertGood(s.store, Request(Public, keyHash, requestHash), b, s.now);
  }

  predicate Plain(a: Action) {
    !a.Allocate? && !a.Create? && !a.Seed?
  }

  /** The frame of those steps: no run is new, no identifier is handed out or taken. */
  lemma PlainFrame(cfg: Config, s: Sys, a: Action, s': Sys)
    requires Aligned(s.store) && Next(cfg, s, a, s') && Plain(a)
    ensures s'.store.runs.Keys == s.store.runs.Keys && s'.store.nextRun == s.store.nextRun
    ensures forall c, id :: Holds(s'.callers, c, id) ==> Holds(s.callers, c, id)
  {
    hide Aligned, ProcessStripeWebhook, Claims, Heartbeat, Retry, Complete, Fail, Enqueued, AddOnce, Replay;
    if a.Load? {
      ProcessKeys(s.store, if IsBusy(s, a.w) && s.workers[a.w].message.payload.Fields?
                           then s.workers[a.w].message.payload.stripeEventID else "", s.now);
    }
  }

  lemma PlainGood(cfg: Config, s: Sys, a: Action, s': Sys)
    requires Consistent(s.store) && NamedWorkers(cfg) && Next(cfg, s, a, s') && Plain(a)
    ensures Consistent(s'.store) && Evolves(s.store, s'.store)
    ensures s'.store.runs.Keys == s.store.runs.Keys && s'.store.nextRun == s.store.nextRun
    ensures forall c, id :: Holds(s'.callers, c, id) ==> Holds(s.callers, c, id)
  {
    hide Consistent, Evolves, ClaimStep, BeatStep, LoadStep, ConcludeStep, DeliverStep, Holds, MarkWebhookSeen,
         StoreSpec.RecordVerification;
    NothingEvolves(s.store);
    AlignedOf(s.store);
    PlainFrame(cfg, s, a, s');
    match a {
      case Claim(w, claimed) => ClaimGood(cfg, s, w, claimed, s');
      case Beat(w, failed) => BeatGood(cfg, s, w, failed, s');
      case Load(w) => LoadGood(cfg, s, w, s');
      case DeliverNext(w) => DeliverGood(cfg, s, w, s');
      case RecordVerdict(w) =>
        var p := s.workers[w].phase;
        RecordConsistent(s.store, p.run.id, Jobs.VerificationAssertion(p.tally, p.fault));
      case Conclude(w) => ConcludeGood(cfg, s, w, s');
      case Ingress(r) => IngressConsistent(s.store, r, s.now);
      case _ =>
    }
  }

  lemma StepGood(cfg: Config, s: Sys, a: Action, s': Sys)
    requires Good(s) && NamedWorkers(cfg) && Next(cfg, s, a, s')
    ensures Good(s') && Evolves(s.store, s'.store)
  {
    hide Consistent, Evolves;
    if Plain(a) {
      PlainGood(cfg, s, a, s');
    } else {
      match a {
        case Allocate(c) => AllocateGood(s, c, s');
        case Create(c, b) => CreateGood(s, c, b, s');
        case Seed(n, k, h, b) => SeedGood(s, n, k, h, b, s');
      }
    }
  }

  // ----- executions -----

  /** In every reachable state ledgers, reports, results, keys and messages agree. */
  lemma {:induction false} Reachable(cfg: Config, states: seq<Sys>, actions: seq<Action>, i: nat)
    requires Execution(cfg, states, actions) && NamedWorkers(cfg) && i < |states|
    ensures Good(states[i])
  {
    hide Consistent, Evolves;
    if i == 0 {
      EmptyConsistent();
    } else {
      Reachable(cfg, states, actions, i - 1);
      assert NextAt(cfg, states, actions, i - 1);
      StepGood(cfg, states[i - 1], actions[i - 1], states[i]);
    }
  }

  /** Whatever was stored stays: a run is frozen but for its event count, ledgers and
      reports are append-only, results and idempotency records are final. */
  lemma {:induction false} HistoryGrows(cfg: Config, states: seq<Sys>, actions: seq<Action>, i: nat, j: nat)
    requires Execution(cfg, states, actions) && NamedWorkers(cfg) && i <= j < |states|
    ensures Evolves(states[i].store, states[j].store)
  {
    hide Consistent, Evolves;
    if i == j {
      NothingEvolves(states[i].store);
    } else {
      HistoryGrows(cfg, states, actions, i, j - 1);
      Reachable(cfg, states, actions, j - 1);
      assert NextAt(cfg, states, actions, j - 1);
      StepGood(cfg, states[j - 1], actions[j - 1], states[j]);
      EvolvesTransitive(states[i].store, states[j - 1].store, states[j].store);
    }
  }

  /** What a stream of a run can rely on, between any two moments: the ledger is numbered from
      one and only appended to, the event count is its length, and the run is terminal with
      the status, score and fault it was created with. */
  lemma LedgerHistory(cfg: Config, states: seq<Sys>, actions: seq<Action>, i: nat, j: nat, r: string)
    requires Execution(cfg, states, actions) && NamedWorkers(cfg) && i <= j < |states|
    requires r in states[i].store.runs
    ensures var s, t := states[i].store, states[j].store;
      && r in t.runs && r in s.events && r in t.events && r in t.reports
      && s.events[r] <= t.events[r] && Numbered(t.events[r]) && t.runs[r].eventCount == |t.events[r]|
      && Frozen(t.runs[r]) == Frozen(s.runs[r]) && IsTerminalRun(t.runs[r]) && t.reports[r].run == t.runs[r]
  {
    hide Execution, KeysOK, MailOK, ProjectionsSettled, ProjectionsMatch, ProjectionsMarked, ResultsOK, MessagesStay;
    Reachable(cfg, states, actions, i);
    Reachable(cfg, states, actions, j);
    HistoryGrows(cfg, states, actions, i, j);
    var t := states[j].store;
    assert RunOK(r, t.runs[r], t.events[r], t.reports[r]);
  }

  /** Ingress answers a known event the same way ever after, and changes nothing: a duplicate
      if type, endpoint and body are those that were first received, a conflict if not. */
  lemma IngressRemembers(cfg: Config, states: seq<Sys>, actions: seq<Action>, i: nat, j: nat, r: WebhookReceipt)
    requires Execution(cfg, states, actions) && NamedWorkers(cfg) && i <= j < |states|
    requires r.eventID in states[i].store.webhooks
    ensures var s := states[j].store; var first := states[i].store.webhooks[r.eventID];
      MarkWebhookSeen(s, r, states[j].now)
      == (s, if r.eventType == first.eventType && r.endpointTokenSHA == first.endpointTokenSHA && r.bodySHA == first.bodySHA
             then SeenDuplicate else SeenConflict)
  {
    hide Execution, RunsGrow, LedgersGrow, ReportsGrow, MessagesStay, CorrelationsStay, EffectsGrow;
    HistoryGrows(cfg, states, actions, i, j);
  }

  /** Processing answers a settled receipt the same way ever after, and changes nothing. */
  lemma ProcessingRemembers(cfg: Config, states: seq<Sys>, actions: seq<Action>, i: nat, j: nat, e: string)
    requires Execution(cfg, states, actions) && NamedWorkers(cfg) && i <= j < |states|
    requires e in states[i].store.webhookResults
    ensures Aligned(states[j].store)
    ensures ProcessStripeWebhook(states[j].store, e, states[j].now)
         == (states[j].store, Some(states[i].store.webhookResults[e].(alreadyProcessed := true)))
  {
    hide Execution, Consistent, CallersOK, RunsGrow, LedgersGrow, ReportsGrow, MessagesStay, CorrelationsStay, ProjectsStay,
         EffectsGrow, Aligned;
    HistoryGrows(cfg, states, actions, i, j);
    Reachable(cfg, states, actions, j);
    AlignedOf(states[j].store);
  }
}
