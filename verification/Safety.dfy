/** Exactly-once effects over whole executions: whatever crashes, takeovers, stale
    resumptions and false error reports happen, a published job has had its effect, and no
    effect happens twice. */
module Safety {
  import opened Options
  import opened Hex
  import opened Text
  import opened Identifiers
  import opened Domain
  import opened Outbox
  import opened StoreSpec
  import opened Verification
  import opened Jobs
  import opened Consistency
  import opened System
  import opened Executions

  // ----- the one assumption about cryptography -----

  /** The tampered envelope of every stored run that is to be tampered with has another MAC
      than the genuine one. */
  ghost predicate TamperDetected(cfg: Config, runs: Runs) {
    forall r :: r in runs && runs[r].fault == Tamper ==> TamperShows(cfg.signer, Envelope(runs[r], cfg.sha))
  }

  /** The envelope of a run does not depend on its event count. */
  lemma EnvelopeOfFrozen(a: Run, b: Run, sha: string -> Hash)
    requires Frozen(a) == Frozen(b)
    ensures Envelope(a, sha) == Envelope(b, sha)
  {
    assert Frozen(a).id == Frozen(b).id && Frozen(a).stripeObjectID == Frozen(b).stripeObjectID;
    assert Frozen(a).environment == Frozen(b).environment;
  }

  /** What is detected of the runs of a later store is detected of those of an earlier one. */
  lemma DetectedBefore(cfg: Config, runs: Runs, runs': Runs)
    requires RunsGrow(runs, runs') && TamperDetected(cfg, runs')
    ensures TamperDetected(cfg, runs)
  {
    hide Envelope, TamperShows;
    forall r | r in runs && runs[r].fault == Tamper
      ensures TamperShows(cfg.signer, Envelope(runs[r], cfg.sha))
    {
      FaultKept(runs, runs', r);
      EnvelopeOfFrozen(runs[r], runs'[r], cfg.sha);
    }
  }

  lemma {:induction false} ZerosDecode(b: seq<Byte>)
    requires EncodeToString(b) == Zeros(|EncodeToString(b)|)
    ensures forall i :: 0 <= i < |b| ==> b[i] == 0
  {
    if b != [] {
      var s := EncodeToString(b);
      assert s[0] == DigitOf(b[0] / 16) && s[1] == DigitOf(b[0] % 16) && s[2..] == EncodeToString(b[1..]);
      assert Nibble(s[0]) == Some(b[0] / 16) && Nibble(s[1]) == Some(b[0] % 16);
      assert s[2..] == Zeros(|s[2..]|);
      ZerosDecode(b[1..]);
      forall i | 0 <= i < |b|
        ensures b[i] == 0
      {
        if i > 0 {
          assert b[i] == b[1..][i - 1];
        }
      }
    }
  }

  lemma RunIDIsOneLine(n: nat)
    ensures OneLine(RunID(n))
  {
    var d := Pad6(n);
    forall c | c in d
      ensures c != '\n'
    {
      var i :| 0 <= i < |d| && d[i] == c;
      assert IsDigit(d[i]);
    }
  }

  /** The worker's envelope for a stored run keeps to a line each, as signing wants it. */
  lemma EnvelopeIsLines(n: nat, run: Run, sha: string -> Hash)
    requires run.id == RunID(n)
    ensures Lines(Envelope(run, sha))
  {
    RunIDIsOneLine(n);
    var digest := sha(run.id + "\n" + run.stripeObjectID + "\n" + run.environment);
    EncodeIsHex(digest);
    forall c | c in EncodeToString(digest)
      ensures c != '\n'
    {
      var i :| 0 <= i < |EncodeToString(digest)| && EncodeToString(digest)[i] == c;
      assert Nibble(EncodeToString(digest)[i]).Some?;
    }
    assert OneLine("verify_") && OneLine("merchant_effect_");
  }

  ghost predicate CollisionFree(signer: Signer) {
    forall x, y :: signer.mac(x) == signer.mac(y) ==> x == y
  }

  /** No digest consists of zeros only. */
  ghost predicate NeverZero(sha: string -> Hash) {
    forall x :: exists i :: 0 <= i < 32 && sha(x)[i] != 0
  }

  /** Tampering with a run's envelope shows. */
  lemma RunShows(signer: Signer, n: nat, run: Run, sha: string -> Hash)
    requires run.id == RunID(n)
    requires CollisionFree(signer) && NeverZero(sha)
    ensures TamperShows(signer, Envelope(run, sha))
  {
    hide RunID, SigningInput, EncodeToString, EffectID, TamperShows;
    EnvelopeIsLines(n, run, sha);
    var digest := sha(run.id + "\n" + run.stripeObjectID + "\n" + run.environment);
    if EncodeToString(digest) == Zeros(|EncodeToString(digest)|) {
      ZerosDecode(digest);
    }
    TamperShowsWhen(signer, Envelope(run, sha));
  }

  /** The assumption holds of every consistent store for a MAC without collisions, when no
      digest consists of zeros only. */
  lemma TamperDetectedWhen(cfg: Config, s: Store)
    requires Consistent(s)
    requires CollisionFree(cfg.signer) && NeverZero(cfg.sha)
    ensures TamperDetected(cfg, s.runs)
  {
    hide KeysOK, BooksOK, MailOK, RunID, Envelope, TamperShows, CollisionFree, NeverZero;
    forall r | r in s.runs && s.runs[r].fault == Tamper
      ensures TamperShows(cfg.signer, Envelope(s.runs[r], cfg.sha))
    {
      RunOf(s, r);
      var n: nat :| 1 <= n < s.nextRun && r == RunID(n);
      RunShows(cfg.signer, n, s.runs[r], cfg.sha);
    }
  }

  // ----- what a finished job has done -----

  predicate Verified(reports: Reports, r: string) {
    r in reports && HasAssertion(reports[r].assertions, MERCHANT_ASSERTION)
  }

  /** The job of a message has had its effect. */
  predicate Effective(s: Store, m: OutboxMessage) {
    m.payload.Fields? &&
    if m.topic == WebhookReceived then m.payload.stripeEventID in s.webhookResults
    else
      var r := m.payload.runID;
      && r in s.runs && Verified(s.reports, r)
      && (s.runs[r].fault != Tamper ==> EffectID(r) in s.merchantEffects)
  }

  lemma AssertionsKept(a: seq<Assertion>, b: seq<Assertion>, id: string)
    requires a <= b && HasAssertion(a, id)
    ensures HasAssertion(b, id)
  {
    var i :| 0 <= i < |a| && a[i].id == id;
    assert b[i].id == id;
  }

  lemma FaultKept(runs: Runs, runs': Runs, r: string)
    requires RunsGrow(runs, runs') && r in runs
    ensures r in runs' && runs'[r].fault == runs[r].fault && Frozen(runs'[r]) == Frozen(runs[r])
  {
    assert Frozen(runs'[r]).fault == Frozen(runs[r]).fault;
  }

  /** An effect is not undone. */
  lemma EffectiveKept(s: Store, s': Store, m: OutboxMessage)
    requires Evolves(s, s') && Effective(s, m)
    ensures Effective(s', m)
  {
    if m.topic != WebhookReceived {
      var r := m.payload.runID;
      AssertionsKept(s.reports[r].assertions, s'.reports[r].assertions, MERCHANT_ASSERTION);
      FaultKept(s.runs, s'.runs, r);
    }
  }

  // ----- verdicts and effects -----

  predicate VerdictsPass(assertions: seq<Assertion>) {
    forall i :: 0 <= i < |assertions| && assertions[i].id == MERCHANT_ASSERTION ==> assertions[i].passed
  }

  /** No execution of the relay ever recorded a failed verdict. */
  predicate AllPass(reports: Reports) {
    forall r :: r in reports ==> VerdictsPass(reports[r].assertions)
  }

  predicate EffectOf(runs: Runs, x: string, r: string) {
    r in runs && runs[r].fault != Tamper && x == EffectID(r)
  }

  /** Every merchant effect belongs to a stored run that was not tampered with. */
  ghost predicate EffectsOwned(runs: Runs, effects: map<string, int>) {
    forall x :: x in effects ==> exists r :: EffectOf(runs, x, r)
  }

  lemma OwnedKept(runs: Runs, runs': Runs, effects: map<string, int>)
    requires RunsGrow(runs, runs') && EffectsOwned(runs, effects)
    ensures EffectsOwned(runs', effects)
  {
    forall x | x in effects
      ensures exists r :: EffectOf(runs', x, r)
    {
      var r :| EffectOf(runs, x, r);
      FaultKept(runs, runs', r);
      assert EffectOf(runs', x, r);
    }
  }

  lemma OwnedAdded(runs: Runs, effects: map<string, int>, r: string, sequence: int)
    requires EffectsOwned(runs, effects) && r in runs && runs[r].fault != Tamper
    ensures EffectsOwned(runs, ApplyEffect(effects, EffectID(r), sequence).0)
  {
    assert EffectOf(runs, EffectID(r), r);
  }

  lemma TamperedHasNoEffect(runs: Runs, effects: map<string, int>, r: string)
    requires EffectsOwned(runs, effects) && r in runs && runs[r].fault == Tamper
    ensures EffectID(r) !in effects
  {
    if EffectID(r) in effects {
      var q :| EffectOf(runs, EffectID(r), q);
      EffectIDInjective(q, r);
    }
  }

  // ----- workers -----

  /** How far a relay execution is: which deliveries are done, and what they added up to. */
  predicate Progress(all: seq<Delivery>, fault: Fault, queue: seq<Delivery>, tally: RelayResult, present: bool) {
    && |queue| <= |all| && queue == all[|all| - |queue|..]
    && tally.fault == fault && tally.duplicates >= 0
    && var done := |all| - |queue|;
       if fault == Tamper then tally.rejected == done && (done > 0 ==> tally.businessEffects == 0)
       else tally.rejected == 0 && (done > 0 ==> tally.businessEffects == 1 && present) && (done > 1 ==> tally.duplicates >= 1)
  }

  lemma ProgressStep(signer: Signer, envelope: Delivery, fault: Fault, queue: seq<Delivery>, tally: RelayResult,
                     effects: map<string, int>)
    requires Supported(fault) && queue != [] && (fault == Tamper ==> TamperShows(signer, envelope))
    requires Progress(Deliveries(signer, envelope, fault), fault, queue, tally, envelope.effectID in effects)
    ensures queue[0].effectID == envelope.effectID
    ensures Genuine(signer, queue[0]) <==> fault != Tamper
    ensures var (effects', receipt) := Deliver(effects, signer, queue[0]);
      Progress(Deliveries(signer, envelope, fault), fault, queue[1..], Tally(tally, receipt), envelope.effectID in effects')
  {
    var all := Deliveries(signer, envelope, fault);
    var k := |all| - |queue|;
    assert queue[0] == all[k] && queue[1..] == all[k + 1..];
    GenuineDeliveries(signer, envelope, fault, k);
  }

  lemma ProgressPasses(signer: Signer, envelope: Delivery, fault: Fault, tally: RelayResult, present: bool)
    requires Supported(fault) && Progress(Deliveries(signer, envelope, fault), fault, [], tally, present)
    ensures Passes(tally) && (fault != Tamper ==> present)
  {
  }

  /** What a worker knows about the job it holds. */
  predicate PhaseOK(cfg: Config, s: Store, m: OutboxMessage, phase: Phase) {
    match phase
    case Loading => true
    case Delivering(run, fault, queue, tally) =>
      && m.payload.Fields? && m.payload.runID == run.id && m.topic != WebhookReceived
      && run.id in s.runs && Frozen(s.runs[run.id]) == Frozen(run)
      && fault == run.fault && Supported(fault)
      && Progress(Deliveries(cfg.signer, Envelope(run, cfg.sha), fault), fault, queue, tally,
                  EffectID(run.id) in s.merchantEffects)
    case Finished(outcome) => outcome != Permanent && (outcome == Success ==> Effective(s, m))
  }

  predicate SameJob(t: Table, m: OutboxMessage) {
    m.id in t && Job(t[m.id].message) == Job(m)
  }

  predicate WorkerOK(cfg: Config, s: Store, b: Worker) {
    b.Busy? ==> SameJob(s.queue.table, b.message) && PhaseOK(cfg, s, b.message, b.phase)
  }

  ghost predicate WorkersOK(cfg: Config, s: Store, workers: map<nat, Worker>) {
    forall w :: w in workers ==> WorkerOK(cfg, s, workers[w])
  }

  predicate PublishedAt(t: Table, id: string) {
    id in t && t[id].published
  }

  ghost predicate PublishedEffective(s: Store) {
    forall id :: PublishedAt(s.queue.table, id) ==> Effective(s, s.queue.table[id].message)
  }

  ghost predicate Safe(cfg: Config, s: Sys) {
    && AllPass(s.store.reports) && EffectsOwned(s.store.runs, s.store.merchantEffects)
    && PublishedEffective(s.store) && WorkersOK(cfg, s.store, s.workers)
  }

  lemma SameJobKept(t: Table, t': Table, m: OutboxMessage)
    requires MessagesStay(t, t') && SameJob(t, m)
    ensures SameJob(t', m)
  {
  }

  lemma PhaseKept(cfg: Config, s: Store, s': Store, m: OutboxMessage, phase: Phase)
    requires Evolves(s, s') && PhaseOK(cfg, s, m, phase)
    ensures PhaseOK(cfg, s', m, phase)
  {
    match phase {
      case Loading =>
      case Delivering(run, fault, queue, tally) => FaultKept(s.runs, s'.runs, run.id);
      case Finished(outcome) =>
        if outcome == Success {
          EffectiveKept(s, s', m);
        }
    }
  }

  lemma WorkerKept(cfg: Config, s: Store, s': Store, b: Worker)
    requires Evolves(s, s') && WorkerOK(cfg, s, b)
    ensures WorkerOK(cfg, s', b)
  {
    if b.Busy? {
      SameJobKept(s.queue.table, s'.queue.table, b.message);
      PhaseKept(cfg, s, s', b.message, b.phase);
    }
  }

  /** A step that changes one worker leaves the others right. */
  lemma WorkersKept(cfg: Config, s: Store, s': Store, workers: map<nat, Worker>, w: nat, b: Worker)
    requires Evolves(s, s') && WorkersOK(cfg, s, workers) && WorkerOK(cfg, s', b)
    ensures WorkersOK(cfg, s', workers[w := b])
    ensures WorkersOK(cfg, s', workers)
  {
    hide Evolves, WorkerOK;
    forall v | v in workers
      ensures WorkerOK(cfg, s', workers[v])
    {
      WorkerKept(cfg, s, s', workers[v]);
    }
  }

  ghost predicate NothingPublished(t: Table, t': Table) {
    forall id :: PublishedAt(t', id) ==> PublishedAt(t, id)
  }

  lemma PublishedKept(s: Store, s': Store)
    requires Evolves(s, s') && PublishedEffective(s) && NothingPublished(s.queue.table, s'.queue.table)
    ensures PublishedEffective(s')
  {
    forall id | PublishedAt(s'.queue.table, id)
      ensures Effective(s', s'.queue.table[id].message)
    {
      assert PublishedAt(s.queue.table, id);
      EffectiveKept(s, s', s.queue.table[id].message);
      SettledStays(s.queue.table, s'.queue.table, id);
    }
  }

  lemma SettledStays(t: Table, t': Table, id: string)
    requires MessagesStay(t, t') && PublishedAt(t, id)
    ensures id in t' && t'[id] == t[id]
  {
  }

  lemma PassKept(reports: Reports, r: string, report: Report)
    requires AllPass(reports) && VerdictsPass(report.assertions)
    ensures AllPass(reports[r := report])
  {
  }

  lemma AddedPasses(report: Report, a: Assertion)
    requires VerdictsPass(report.assertions) && (a.id == MERCHANT_ASSERTION ==> a.passed)
    ensures VerdictsPass(AddOnce(report, a).assertions)
  {
  }

  // ----- each step -----

  /** What is common to most steps: reports untouched, effects untouched, nothing published. */
  lemma QuietSafe(cfg: Config, s: Sys, s': Sys, w: nat, b: Worker)
    requires Safe(cfg, s) && Evolves(s.store, s'.store)
    requires s'.store.merchantEffects == s.store.merchantEffects && AllPass(s'.store.reports)
    requires NothingPublished(s.store.queue.table, s'.store.queue.table)
    requires WorkerOK(cfg, s'.store, b) && (s'.workers == s.workers || s'.workers == s.workers[w := b])
    ensures Safe(cfg, s')
  {
    hide Evolves, PublishedEffective, WorkersOK, WorkerOK, AllPass, NothingPublished, EffectsOwned;
    GrowsFrom(s.store, s'.store);
    OwnedKept(s.store.runs, s'.store.runs, s.store.merchantEffects);
    PublishedKept(s.store, s'.store);
    WorkersKept(cfg, s.store, s'.store, s.workers, w, b);
  }

  lemma GrowsFrom(s: Store, s': Store)
    requires Evolves(s, s')
    ensures RunsGrow(s.runs, s'.runs) && MessagesStay(s.queue.table, s'.queue.table)
  {
  }

  lemma ClaimSafe(cfg: Config, s: Sys, w: nat, claimed: Option<OutboxMessage>, s': Sys)
    requires Safe(cfg, s) && Evolves(s.store, s'.store) && ClaimStep(cfg, s, w, claimed, s')
    requires Keyed(Items(s))
    ensures Safe(cfg, s')
  {
    hide Evolves, PublishedEffective, WorkersOK, AllPass, EffectsOwned, Effective, Job;
    QuietSafe(cfg, s, s', w, if claimed.Some? then s'.workers[w] else Idle);
  }

  lemma BeatSafe(cfg: Config, s: Sys, w: nat, failed: bool, s': Sys)
    requires Safe(cfg, s) && Evolves(s.store, s'.store) && BeatStep(cfg, s, w, failed, s')
    ensures Safe(cfg, s')
  {
    hide Evolves, PublishedEffective, AllPass, EffectsOwned, Effective, Job, PhaseOK, SameJob;
    WorkerKept(cfg, s.store, s'.store, s.workers[w]);
    QuietSafe(cfg, s, s', w, s'.workers[w]);
  }

  lemma ConcludeSafe(cfg: Config, s: Sys, w: nat, s': Sys)
    requires Safe(cfg, s) && Evolves(s.store, s'.store) && ConcludeStep(cfg, s, w, s')
    ensures Safe(cfg, s')
  {
    hide Evolves, AllPass, EffectsOwned, Effective, Job;
    var b := s.workers[w];
    if FinalOutcome(b) == Success {
      CompleteSafe(s.store, b.message, cfg.owner(w), s'.store);
      WorkersKept(cfg, s.store, s'.store, s.workers, w, Idle);
    } else {
      QuietSafe(cfg, s, s', w, Idle);
    }
  }

  lemma EffectiveSameJob(s: Store, m: OutboxMessage, m': OutboxMessage)
    requires Job(m) == Job(m') && Effective(s, m)
    ensures Effective(s, m')
  {
    assert Job(m).payload == Job(m').payload && Job(m).topic == Job(m').topic;
  }

  lemma CompleteSafe(s: Store, m: OutboxMessage, owner: string, s': Store)
    requires PublishedEffective(s) && Effective(s, m) && SameJob(s.queue.table, m) && Evolves(s, s')
    requires s' == WithTable(s, Complete(s.queue.table, m.id, owner).0)
    ensures PublishedEffective(s')
  {
    hide Evolves, Effective, Job;
    var t, t' := s.queue.table, s'.queue.table;
    EffectiveSameJob(s, m, t[m.id].message);
    forall id | PublishedAt(t', id)
      ensures Effective(s', t'[id].message)
    {
      if id == m.id && t' != t {
        UnlockedSameJob(t[id]);
        EffectiveKept(s, s', t[id].message);
        EffectiveSameJob(s', t[id].message, t'[id].message);
      } else {
        assert PublishedAt(t, id);
        EffectiveKept(s, s', t[id].message);
      }
    }
  }

  lemma UnlockedSameJob(item: OutboxItem)
    ensures Job(Unlocked(item).message) == Job(item.message)
  {
  }

  // ----- loading -----

  /** A job message names a stored run and its fault, or a stored receipt. */
  lemma JobOf(s: Store, m: OutboxMessage)
    requires MailOK(s.queue, s.runs, s.webhooks.Keys) && SameJob(s.queue.table, m)
    ensures MessageOK(m, s.runs, s.webhooks.Keys)
  {
    var kept := s.queue.table[m.id].message;
    assert MessageOK(kept, s.runs, s.webhooks.Keys);
    assert Job(kept).payload == Job(m).payload && Job(kept).topic == Job(m).topic && Job(kept).aggregateID == Job(m).aggregateID;
  }

  lemma RunOf(s: Store, r: string)
    requires BooksOK(s) && KeysOK(s) && r in s.runs
    ensures s.runs[r].id == r && SupportedFault(s.runs[r].fault) && r in RunNames(s.nextRun)
    ensures r in s.events && r in s.reports
  {
    hide KeysOK, ProjectionsSettled, ProjectionsMatch, ProjectionsMarked, ResultsOK;
    assert RunOK(r, s.runs[r], s.events[r], s.reports[r]);
    NamesOf(s);
  }

  /** A verification job finds its run, and takes the fault of the run. */
  lemma PreparedOK(cfg: Config, s: Sys, m: OutboxMessage)
    requires Consistent(s.store) && SameJob(s.store.queue.table, m)
    requires IsRunTopic(m.topic)
    ensures PhaseOK(cfg, s.store, m, Prepared(cfg, s, m))
    ensures Prepared(cfg, s, m).Delivering?
  {
    hide BooksOK, MailOK, KeysOK, Envelope, Deliveries, RunNames, SameJob;
    JobOf(s.store, m);
    NamesOf(s.store);
    RunOf(s.store, m.payload.runID);
    var run := s.store.runs[m.payload.runID];
    assert EffectiveFault(m.payload, run) == run.fault;
    var all := Deliveries(cfg.signer, Envelope(run, cfg.sha), run.fault);
    assert all[|all| - |all|..] == all;
  }

  lemma LoadSafe(cfg: Config, s: Sys, w: nat, s': Sys)
    requires Safe(cfg, s) && Consistent(s.store) && Evolves(s.store, s'.store) && LoadStep(cfg, s, w, s')
    ensures Safe(cfg, s')
  {
    hide Evolves, Consistent, PublishedEffective, AllPass, EffectsOwned, Effective, Job, SameJob, PhaseOK,
         Prepared, ProcessStripeWebhook;
    var m := s.workers[w].message;
    JobTopic(s.store, m);
    if m.topic == WebhookReceived {
      WebhookLoadSafe(cfg, s, w, s');
    } else {
      PreparedOK(cfg, s, m);
      QuietSafe(cfg, s, s', w, s'.workers[w]);
    }
  }

  lemma JobTopic(s: Store, m: OutboxMessage)
    requires Consistent(s) && SameJob(s.queue.table, m)
    ensures m.topic == WebhookReceived || IsRunTopic(m.topic)
    ensures m.topic == WebhookReceived ==> WebhookJobValid(m) && m.payload.stripeEventID in s.webhooks
  {
    hide BooksOK, MailOK, KeysOK, SameJob;
    JobOf(s, m);
    NamesOf(s);
  }

  lemma ProcessedReports(s: Store, e: string, now: int)
    requires Aligned(s) && AllPass(s.reports)
    ensures AllPass(ProcessStripeWebhook(s, e, now).0.reports)
    ensures ProcessStripeWebhook(s, e, now).0.queue == s.queue
    ensures ProcessStripeWebhook(s, e, now).0.merchantEffects == s.merchantEffects
    ensures e in s.webhooks ==> e in ProcessStripeWebhook(s, e, now).0.webhookResults && ProcessStripeWebhook(s, e, now).1.Some?
  {
    if e in s.webhooks && e !in s.webhookResults {
      var r := s.webhooks[e];
      var v := Classify(s, r);
      if v.Match? {
        ProjectedReports(s, r, v.runID, now);
      }
    }
  }

  lemma SettlesReceipt(s: Store, e: string, now: int)
    requires Aligned(s) && e in s.webhooks
    ensures e in ProcessStripeWebhook(s, e, now).0.webhookResults && ProcessStripeWebhook(s, e, now).1.Some?
    ensures ProcessStripeWebhook(s, e, now).0.queue == s.queue
  {
  }

  /** Effects do not depend on the outbox. */
  lemma EffectiveAnyTable(s: Store, q: Queue, m: OutboxMessage)
    requires Effective(s, m)
    ensures Effective(s.(queue := q), m)
  {
  }

  lemma ProjectedReports(s: Store, r: WebhookReceipt, runID: string, now: int)
    requires Aligned(s) && AllPass(s.reports) && runID in s.runs
    ensures AllPass(ProjectWebhook(s, r, runID, now).reports)
  {
    var run := ProjectWebhook(s, r, runID, now).runs[runID];
    var report := s.reports[runID].(run := run);
    AddedPasses(report, WebhookCorrelationAssertion(r));
    PassKept(s.reports, runID, AddOnce(report, WebhookCorrelationAssertion(r)));
  }

  lemma WebhookLoadSafe(cfg: Config, s: Sys, w: nat, s': Sys)
    requires Safe(cfg, s) && Consistent(s.store) && Evolves(s.store, s'.store) && LoadStep(cfg, s, w, s')
    requires s.workers[w].message.topic == WebhookReceived
    ensures Safe(cfg, s')
  {
    hide Evolves, Consistent, PublishedEffective, AllPass, EffectsOwned, Job, SameJob, ProcessStripeWebhook;
    var m := s.workers[w].message;
    JobTopic(s.store, m);
    ProcessedReports(s.store, m.payload.stripeEventID, s.now);
    QuietSafe(cfg, s, s', w, s'.workers[w]);
  }

  // ----- delivering and recording -----

  lemma DeliverSafe(cfg: Config, s: Sys, w: nat, s': Sys)
    requires Safe(cfg, s) && Consistent(s.store) && Evolves(s.store, s'.store) && DeliverStep(cfg, s, w, s')
    requires TamperDetected(cfg, s.store.runs)
    ensures Safe(cfg, s')
  {
    hide Evolves, Consistent, PublishedEffective, AllPass, EffectsOwned, Job, SameJob, Deliveries, Envelope,
         Progress, TamperDetected, Effective;
    var b := s.workers[w];
    var run, fault := b.phase.run, b.phase.fault;
    var envelope := Envelope(run, cfg.sha);
    EnvelopeEffect(run, cfg.sha);
    FrozenParts(run, s.store.runs[run.id]);
    JobShows(cfg, s.store.runs, run);
    ProgressStep(cfg.signer, envelope, fault, b.phase.queue, b.phase.tally, s.store.merchantEffects);
    DeliveredOwned(cfg, s.store, b.phase.queue[0], run.id);
    GrowsFrom(s.store, s'.store);
    SameJobKept(s.store.queue.table, s'.store.queue.table, b.message);
    PublishedKept(s.store, s'.store);
    WorkersKept(cfg, s.store, s'.store, s.workers, w, s'.workers[w]);
  }

  lemma EnvelopeEffect(run: Run, sha: string -> Hash)
    ensures Envelope(run, sha).effectID == EffectID(run.id)
  {
  }

  lemma FrozenParts(a: Run, b: Run)
    requires Frozen(a) == Frozen(b)
    ensures a.fault == b.fault && a.id == b.id
  {
    assert Frozen(a).fault == Frozen(b).fault && Frozen(a).id == Frozen(b).id;
  }

  lemma JobShows(cfg: Config, runs: Runs, run: Run)
    requires TamperDetected(cfg, runs) && run.id in runs && Frozen(runs[run.id]) == Frozen(run)
    ensures run.fault == Tamper ==> TamperShows(cfg.signer, Envelope(run, cfg.sha))
  {
    hide Envelope, TamperShows;
    FrozenParts(run, runs[run.id]);
    EnvelopeOfFrozen(run, runs[run.id], cfg.sha);
  }

  lemma DeliveredOwned(cfg: Config, s: Store, d: Delivery, r: string)
    requires EffectsOwned(s.runs, s.merchantEffects) && r in s.runs && d.effectID == EffectID(r)
    requires Genuine(cfg.signer, d) ==> s.runs[r].fault != Tamper
    ensures EffectsOwned(s.runs, Deliver(s.merchantEffects, cfg.signer, d).0)
  {
    hide EffectsOwned, Genuine;
    if Genuine(cfg.signer, d) {
      OwnedAdded(s.runs, s.merchantEffects, r, d.sequence);
    }
  }

  lemma RecordSafe(cfg: Config, s: Sys, w: nat, s': Sys)
    requires Safe(cfg, s) && Consistent(s.store) && Evolves(s.store, s'.store) && RecordStep(cfg, s, w, s')
    ensures Safe(cfg, s')
  {
    hide Evolves, Consistent, PublishedEffective, AllPass, EffectsOwned, Job, SameJob, Deliveries, Envelope, Progress;
    var b := s.workers[w];
    var p := b.phase;
    FrozenParts(p.run, s.store.runs[p.run.id]);
    ProgressPasses(cfg.signer, Envelope(p.run, cfg.sha), p.fault, p.tally, EffectID(p.run.id) in s.store.merchantEffects);
    var a := VerificationAssertion(p.tally, p.fault);
    RecordConsistent(s.store, p.run.id, a);
    RecordedReports(s.store, p.run.id, a);
    QuietSafe(cfg, s, s', w, s'.workers[w]);
  }

  lemma RecordedReports(s: Store, r: string, a: Assertion)
    requires AllPass(s.reports) && (a.id == MERCHANT_ASSERTION ==> a.passed)
    ensures AllPass(RecordVerification(s, r, a).0.reports)
  {
    if r in s.reports {
      AddedPasses(s.reports[r], a);
      PassKept(s.reports, r, AddOnce(s.reports[r], a));
    }
  }

  // ----- creation -----

  lemma NewBundlePasses(b: RunBundle)
    requires WellFormedBundle(b)
    ensures VerdictsPass(b.report.assertions)
  {
    forall i | 0 <= i < |b.report.assertions|
      ensures b.report.assertions[i].id != MERCHANT_ASSERTION
    {
    }
  }

  lemma BuiltIsWellFormed(b: RunBundle)
    requires BuiltFor(b, b.run.id)
    ensures WellFormedBundle(b)
  {
  }

  lemma CreatedReports(s: Store, q: Request, b: RunBundle, now: int)
    requires Consistent(s) && BuiltFor(b, b.run.id) && AllPass(s.reports)
    ensures var s' := CreateRun(s, q.scope, q.keyHash, q.requestHash, b, now).0;
      AllPass(s'.reports) && s'.merchantEffects == s.merchantEffects
      && NothingPublished(s.queue.table, s'.queue.table)
  {
    hide Consistent, AllPass, WellFormedBundle, OutboxID, Aligned, RunNames, RunPayload, Replay, BuiltFor;
    AlignedOf(s);
    BuiltIsWellFormed(b);
    NewBundlePasses(b);
    PassKept(s.reports, b.run.id, b.report);
  }

  lemma CreateSafe(cfg: Config, s: Sys, q: Request, b: RunBundle, s': Sys)
    requires Safe(cfg, s) && Consistent(s.store) && BuiltFor(b, b.run.id) && Evolves(s.store, s'.store)
    requires s'.store == CreateRun(s.store, q.scope, q.keyHash, q.requestHash, b, s.now).0 && s'.workers == s.workers
    ensures Safe(cfg, s')
  {
    hide Evolves, Consistent, PublishedEffective, AllPass, EffectsOwned, WellFormedBundle, CreateRun;
    CreatedReports(s.store, q, b, s.now);
    QuietSafe(cfg, s, s', 0, Idle);
  }

  lemma IngressSafe(cfg: Config, s: Sys, r: WebhookReceipt, s': Sys)
    requires Safe(cfg, s) && Evolves(s.store, s'.store)
    requires s' == s.(store := MarkWebhookSeen(s.store, r, s.now).0)
    ensures Safe(cfg, s')
  {
    hide Evolves, PublishedEffective, AllPass, EffectsOwned, OutboxID;
    QuietSafe(cfg, s, s', 0, Idle);
  }

  lemma StepSafe(cfg: Config, s: Sys, a: Action, s': Sys)
    requires Good(s) && Safe(cfg, s) && NamedWorkers(cfg) && TamperDetected(cfg, s.store.runs) && Next(cfg, s, a, s')
    ensures Good(s') && Safe(cfg, s')
  {
    hide Consistent, Evolves, PublishedEffective, AllPass, EffectsOwned, TamperDetected, WorkerOK,
         ClaimStep, BeatStep, LoadStep, DeliverStep, RecordStep, ConcludeStep, MarkWebhookSeen, CreateRun;
    StepGood(cfg, s, a, s');
    match a {
      case Claim(w, claimed) => KeyedOf(s.store); ClaimSafe(cfg, s, w, claimed, s');
      case Beat(w, failed) => BeatSafe(cfg, s, w, failed, s');
      case Load(w) => LoadSafe(cfg, s, w, s');
      case DeliverNext(w) => DeliverSafe(cfg, s, w, s');
      case RecordVerdict(w) => RecordSafe(cfg, s, w, s');
      case Conclude(w) => ConcludeSafe(cfg, s, w, s');
      case Abort(w) => AbortSafe(cfg, s, w, s');
      case Crash(w) => IdleOK(cfg, s.store); QuietSafe(cfg, s, s', w, Idle);
      case Ingress(r) => IngressSafe(cfg, s, r, s');
      case Create(c, b) => CreateSafe(cfg, s, s.callers[c].request, b, s');
      case Seed(n, k, h, b) => CreateSafe(cfg, s, Request(Public, k, h), b, s');
      case _ => IdleOK(cfg, s.store); IdleOK(cfg, s'.store); QuietSafe(cfg, s, s', 0, Idle);
    }
  }

  lemma IdleOK(cfg: Config, s: Store)
    ensures WorkerOK(cfg, s, Idle)
  {
  }

  lemma AbortSafe(cfg: Config, s: Sys, w: nat, s': Sys)
    requires Safe(cfg, s) && Evolves(s.store, s'.store) && AbortStep(s, w, s')
    ensures Safe(cfg, s')
  {
    hide Evolves, PublishedEffective, AllPass, EffectsOwned, SameJob;
    QuietSafe(cfg, s, s', w, s'.workers[w]);
  }

  lemma {:induction false} AlwaysSafe(cfg: Config, states: seq<Sys>, actions: seq<Action>, i: nat)
    requires Execution(cfg, states, actions) && NamedWorkers(cfg) && i < |states|
    requires TamperDetected(cfg, states[i].store.runs)
    ensures Good(states[i]) && Safe(cfg, states[i])
  {
    hide Consistent, Evolves, TamperDetected, Next;
    if i == 0 {
      EmptyConsistent();
    } else {
      Reachable(cfg, states, actions, i - 1);
      assert NextAt(cfg, states, actions, i - 1);
      StepGood(cfg, states[i - 1], actions[i - 1], states[i]);
      GrowsFrom(states[i - 1].store, states[i].store);
      DetectedBefore(cfg, states[i - 1].store.runs, states[i].store.runs);
      AlwaysSafe(cfg, states, actions, i - 1);
      StepSafe(cfg, states[i - 1], actions[i - 1], states[i]);
    }
  }

  // ----- the theorem -----

  function CountOf(assertions: seq<Assertion>, id: string): nat {
    if assertions == [] then 0
    else CountOf(assertions[..|assertions| - 1], id) + if assertions[|assertions| - 1].id == id then 1 else 0
  }

  lemma {:induction false} UniqueCount(assertions: seq<Assertion>, id: string)
    requires UniqueIDs(assertions)
    ensures CountOf(assertions, id) == if HasAssertion(assertions, id) then 1 else 0
  {
    if assertions != [] {
      var k := |assertions| - 1;
      UniqueCount(assertions[..k], id);
      if HasAssertion(assertions[..k], id) {
        var i :| 0 <= i < k && assertions[..k][i].id == id;
        assert assertions[i].id == id;
      } else if assertions[k].id == id {
        assert HasAssertion(assertions, id);
      }
    }
  }

  /** The places where a Stripe event is in a ledger. */
  ghost predicate OnlyAt(ledgers: Ledgers, e: string, r: string, i: nat) {
    ProjectedAt(ledgers, r, i, e) && forall q, j: nat :: ProjectedAt(ledgers, q, j, e) ==> q == r && j == i
  }

  /** The job of a run is done once: one verdict, which passed, and one merchant effect
      unless the delivery was tampered with. */
  predicate RunDoneOnce(s: Store, r: string) {
    && r in s.runs && r in s.reports
    && CountOf(s.reports[r].assertions, MERCHANT_ASSERTION) == 1 && VerdictsPass(s.reports[r].assertions)
    && (EffectID(r) in s.merchantEffects <==> s.runs[r].fault != Tamper)
  }

  /** The job of a receipt is done once: a terminal result, and one place in one ledger if
      it matched, none if not. */
  ghost predicate ReceiptDoneOnce(s: Store, e: string) {
    e in s.webhookResults && Terminal(s.webhookResults[e].status) &&
    if s.webhookResults[e].status == Matched then exists i: nat :: OnlyAt(s.events, e, s.webhookResults[e].runID, i)
    else forall r, i: nat :: !ProjectedAt(s.events, r, i, e)
  }

  ghost predicate DoneOnce(s: Store, m: OutboxMessage) {
    m.payload.Fields? &&
    if m.topic == WebhookReceived then ReceiptDoneOnce(s, m.payload.stripeEventID) else RunDoneOnce(s, m.payload.runID)
  }

  lemma ReceiptOnce(s: Store, e: string)
    requires BooksOK(s) && e in s.webhookResults
    ensures ReceiptDoneOnce(s, e)
  {
    hide RunsOK, ProjectionsMatch, ProjectionsMarked;
    var result := s.webhookResults[e];
    if result.status == Matched {
      var i: nat :| ProjectedAt(s.events, result.runID, i, e);
      assert OnlyAt(s.events, e, result.runID, i);
    }
  }

  lemma RunOnce(s: Store, r: string)
    requires BooksOK(s) && AllPass(s.reports) && EffectsOwned(s.runs, s.merchantEffects)
    requires r in s.runs && Verified(s.reports, r) && (s.runs[r].fault != Tamper ==> EffectID(r) in s.merchantEffects)
    ensures RunDoneOnce(s, r)
  {
    hide ProjectionsSettled, ProjectionsMatch, ProjectionsMarked, ResultsOK, EffectsOwned;
    assert RunOK(r, s.runs[r], s.events[r], s.reports[r]);
    UniqueCount(s.reports[r].assertions, MERCHANT_ASSERTION);
    if s.runs[r].fault == Tamper {
      TamperedHasNoEffect(s.runs, s.merchantEffects, r);
    }
  }

  /** Exactly once: in every state of every execution, a published message has had its
      effect, and had it once. */
  lemma ExactlyOnce(cfg: Config, states: seq<Sys>, actions: seq<Action>, i: nat, id: string)
    requires Execution(cfg, states, actions) && NamedWorkers(cfg) && i < |states|
    requires TamperDetected(cfg, states[i].store.runs)
    requires PublishedAt(Items(states[i]), id)
    ensures DoneOnce(states[i].store, Items(states[i])[id].message)
  {
    hide Execution, TamperDetected, AllPass, EffectsOwned, BooksOK, KeysOK, MailOK, WorkersOK;
    AlwaysSafe(cfg, states, actions, i);
    var s, m := states[i].store, Items(states[i])[id].message;
    assert Effective(s, m);
    if m.topic == WebhookReceived {
      ReceiptOnce(s, m.payload.stripeEventID);
    } else {
      RunOnce(s, m.payload.runID);
    }
  }

  /** Never twice, published or not: at most one verdict per run, and at most one place per
      Stripe event. */
  lemma NeverTwice(cfg: Config, states: seq<Sys>, actions: seq<Action>, i: nat, r: string, e: string, q: string, j: nat, k: nat)
    requires Execution(cfg, states, actions) && NamedWorkers(cfg) && i < |states|
    ensures var s := states[i].store;
      && (r in s.reports ==> CountOf(s.reports[r].assertions, MERCHANT_ASSERTION) <= 1)
      && (ProjectedAt(s.events, r, j, e) && ProjectedAt(s.events, q, k, e) ==> r == q && j == k)
  {
    hide Execution, KeysOK, MailOK, ProjectionsMatch, ProjectionsMarked, ResultsOK;
    Reachable(cfg, states, actions, i);
    var s := states[i].store;
    if r in s.reports {
      assert RunOK(r, s.runs[r], s.events[r], s.reports[r]);
      UniqueCount(s.reports[r].assertions, MERCHANT_ASSERTION);
    }
  }

  predicate Born(states: seq<Sys>, i: nat, x: string)
    requires i + 1 < |states|
  {
    x !in states[i].store.merchantEffects && x in states[i + 1].store.merchantEffects
  }

  /** A merchant effect comes into being at most once in an execution; every other delivery
      of it finds it there. */
  lemma EffectBornOnce(cfg: Config, states: seq<Sys>, actions: seq<Action>, i: nat, j: nat, x: string)
    requires Execution(cfg, states, actions) && NamedWorkers(cfg) && i + 1 < |states| && j + 1 < |states|
    requires Born(states, i, x) && Born(states, j, x)
    ensures i == j
  {
    hide Next, RunsGrow, LedgersGrow, ReportsGrow, MessagesStay, CorrelationsStay, Stays;
    if i < j {
      HistoryGrows(cfg, states, actions, i + 1, j);
    } else if j < i {
      HistoryGrows(cfg, states, actions, j + 1, i);
    }
  }
}
