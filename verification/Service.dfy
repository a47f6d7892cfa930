/** Run creation as the API service performs it: validate, replay, allocate, build, create;
    and the three seed runs. */
module Service {
  import opened Options
  import opened Hex
  import opened Text
  import opened Identifiers
  import opened Domain
  import opened Outbox
  import opened StoreSpec
  import opened Consistency
  import opened MemoryRepository
  import opened Queueing
  import opened Timeline
  import Executions
  import Jobs
  import System

  const DEMO_EPOCH := 1_784_367_000_000_000_000

  /** The scenarios on offer, and the faults that each supports. */
  function SupportedFaults(scenarioID: string): Option<seq<Fault>> {
    match scenarioID
    case "checkout-duplicate" => Some([NoFault, Duplicate])
    case "webhook-disorder" => Some([NoFault, Reorder, Tamper])
    case "endpoint-recovery" => Some([NoFault, Timeout])
    case "subscription-renewal" => Some([NoFault, Reorder, Timeout])
    case "refund-convergence" => Some([NoFault, Duplicate, Reorder])
    case _ => None
  }

  lemma ScenariosOfferSupportedFaults(scenarioID: string, fault: Fault)
    requires SupportedFaults(scenarioID).Some? && fault in SupportedFaults(scenarioID).value
    ensures SupportedFault(fault)
  {
  }

  /** The scenarios that offer a fault. */
  function OfferedBy(fault: Fault): set<string> {
    match fault
    case NoFault =>
      {"checkout-duplicate", "webhook-disorder", "endpoint-recovery", "subscription-renewal", "refund-convergence"}
    case Duplicate => {"checkout-duplicate", "refund-convergence"}
    case Reorder => {"webhook-disorder", "subscription-renewal", "refund-convergence"}
    case Timeout => {"endpoint-recovery", "subscription-renewal"}
    case Tamper => {"webhook-disorder"}
    case _ => {}
  }

  /** The table read the other way: each fault of the relay is offered by some scenario, and
      by exactly these. */
  lemma EveryFaultIsOffered(scenarioID: string, fault: Fault)
    ensures SupportedFaults(scenarioID).Some? && fault in SupportedFaults(scenarioID).value <==> scenarioID in OfferedBy(fault)
    ensures SupportedFault(fault) <==> OfferedBy(fault) != {}
  {
    ScenariosDiffer();
    assert SupportedFault(fault) ==> "webhook-disorder" in OfferedBy(fault) || "refund-convergence" in OfferedBy(fault)
                                     || "endpoint-recovery" in OfferedBy(fault);
  }

  lemma ScenariosDiffer()
    ensures "checkout-duplicate"[0] == 'c' && "webhook-disorder"[0] == 'w' && "endpoint-recovery"[0] == 'e'
    ensures "subscription-renewal"[0] == 's' && "refund-convergence"[0] == 'r'
  {
  }

  datatype Refusal =
    | KeyMissing | ScenarioUnknown | FaultUnsupported | KeyInUse
    | InvalidAmount | InvalidCurrency | ConnectionUnknown | GatewayFailed

  datatype Reply = Refused(reason: Refusal) | Replied(run: Run, replayed: bool)

  /** How a repository answers for a project, or for the public. */
  function ScopeOf(projectID: string): Scope {
    if projectID == "" then Public else Project(projectID)
  }

  /** A new run belongs to the project that asked for it, if there is one. */
  predicate Owned(s: Store, projectID: string, runID: string, s': Store) {
    s'.projectByRun == if projectID == "" then s.projectByRun else s.projectByRun[runID := projectID]
  }

  /** What a request may do to the store, once it is valid: an earlier answer for its key
      decides, and leaves everything as it is; otherwise exactly one new run is created under
      the next identifier. */
  ghost predicate CreatedOnce(s: Store, scope: Scope, keyHash: Hash, requestHash: Hash, now: int, reply: Reply, s': Store)
    requires Aligned(s)
  {
    match Replay(s, scope, keyHash, requestHash)
    case Conflict => s' == s && reply == Refused(KeyInUse)
    case Granted(run, _) => s' == s && reply == Replied(run, true)
    case Missing =>
      reply.Replied? && !reply.replayed && reply.run.id == RunID(s.nextRun)
      && exists b :: Created(s, scope, keyHash, requestHash, b, now, s') && reply.run == b.run
  }

  /** One new run from a well-formed bundle under the next identifier. */
  ghost predicate Created(s: Store, scope: Scope, keyHash: Hash, requestHash: Hash, b: RunBundle, now: int, s': Store) {
    System.BuiltFor(b, RunID(s.nextRun)) && s' == Insert(NextRunID(s).0, scope, keyHash, requestHash, b, now)
  }

  /** Creation through the service keeps the store consistent and replays ever after. */
  lemma CreatedOnceReplays(s: Store, scope: Scope, keyHash: Hash, requestHash: Hash, now: int, reply: Reply, s': Store)
    requires Consistent(s) && Aligned(s) && CreatedOnce(s, scope, keyHash, requestHash, now, reply, s')
    ensures Consistent(s') && Evolves(s, s') && Aligned(s')
    ensures reply.Replied? ==> Replay(s', scope, keyHash, requestHash) == Granted(reply.run, true)
    ensures reply.Refused? ==> Replay(s', scope, keyHash, requestHash) == Conflict
  {
    hide Consistent, Evolves, Insert, RunNames, RunID, System.BuiltFor;
    NothingEvolves(s);
    match Replay(s, scope, keyHash, requestHash) {
      case Missing =>
        var b :| Created(s, scope, keyHash, requestHash, b, now, s') && reply.run == b.run;
        InsertedReplays(s, scope, keyHash, requestHash, b, now, s');
      case _ =>
    }
  }

  lemma BuiltParts(b: RunBundle, id: string)
    requires System.BuiltFor(b, id)
    ensures b.run.id == id && System.BuiltFor(b, b.run.id)
  {
  }

  lemma InsertedReplays(s: Store, scope: Scope, keyHash: Hash, requestHash: Hash, b: RunBundle, now: int, s': Store)
    requires Consistent(s) && Aligned(s) && Created(s, scope, keyHash, requestHash, b, now, s')
    requires Replay(s, scope, keyHash, requestHash) == Missing
    ensures Consistent(s') && Evolves(s, s') && Aligned(s')
    ensures Replay(s', scope, keyHash, requestHash) == Granted(b.run, true)
  {
    hide Consistent, Evolves, RunNames, RunID, System.BuiltFor, Aligned;
    var s1 := NextRunID(s).0;
    BuiltParts(b, RunID(s.nextRun));
    AllocateConsistent(s);
    Executions.AlignedOf(s);
    Executions.AlignedOf(s1);
    AllocatedIsNamed(s);
    Executions.InsertGood(s1, System.Request(scope, keyHash, requestHash), b, now);
    EvolvesTransitive(s, s1, s');
    Executions.AlignedOf(s');
  }

  /** A run that was just created has one job, which anyone can claim from its creation on. */
  lemma CreatedIsQueued(s: Store, scope: Scope, keyHash: Hash, requestHash: Hash, b: RunBundle, now: int, s': Store)
    requires Consistent(s) && Created(s, scope, keyHash, requestHash, b, now, s')
    ensures RunQueued(s.queue.table, s'.queue.table, b.run, if b.topic == NoTopic then RunPersisted else b.topic, now)
  {
    hide Consistent, MailOK, RunNames, RunID, WellFormedBundle, RunQueued, Insert, RunTopic, IsRunTopic;
    AllocatedIsNamed(s);
    MailOf(s);
    InsertQueues(NextRunID(s).0, scope, keyHash, requestHash, b, now);
  }

  lemma MailOf(s: Store)
    requires Consistent(s)
    ensures MailOK(s.queue, s.runs, s.webhooks.Keys)
  {
    hide KeysOK, BooksOK, MailOK;
  }

  lemma AllocatedIsNamed(s: Store)
    requires Consistent(s)
    ensures RunID(s.nextRun) != "" && RunID(s.nextRun) !in s.runs && RunID(s.nextRun) in RunNames(s.nextRun + 1)
  {
    hide Consistent;
    Executions.AlignedOf(s);
    FreshRunName(s.nextRun);
    assert |RunID(s.nextRun)| >= 4;
  }

  predicate LowercaseLetters(s: string) {
    forall i :: 0 <= i < |s| ==> 'a' <= s[i] <= 'z'
  }

  predicate ValidCurrency(currency: string) {
    |currency| == 3 && LowercaseLetters(currency)
  }

  lemma ValidCurrencyIs(currency: string)
    ensures ValidCurrency(currency) <==> |currency| == 3 && forall c :: c in currency ==> 'a' <= c <= 'z'
  {
    assert forall i :: 0 <= i < |currency| ==> currency[i] in currency;
  }

  /** The bundle of a Stripe run: nine events about the intent and a report of four assertions. */
  method StripeBundle(id: string, number: nat, amount: int, currency: string, intent: Intent, correlationID: string, now: int)
    returns (bundle: RunBundle)
    requires |id| >= 4
    ensures System.BuiltFor(bundle, id) && bundle.run.stripeObjectID == intent.id && bundle.correlationID == correlationID
    ensures bundle.run.fault == Duplicate && bundle.run.status == Passed && bundle.topic == VerificationQueued
    ensures |bundle.events| == bundle.run.eventCount == 9 && |bundle.report.assertions| == 4
    ensures forall e :: e in bundle.events ==> e.evidence == SandboxPayment(amount, currency, intent.id, correlationID)
  {
    hide Shows, WellFormedBundle, HasAssertion;
    bundle := BuildRunBundle(id, number, "checkout-duplicate", Duplicate, now);
    BundleLength(bundle);
    bundle := AttachIntent(bundle, amount, currency, intent, correlationID);
  }

  lemma BundleLength(b: RunBundle)
    requires WellFormedBundle(b)
    ensures |b.events| == b.run.eventCount
  {
  }

  // ----- what is sent to the gateway -----

  /** The gateway's idempotency key and the correlation are fixed by the caller's key. */
  function GatewayKey(sha: string -> Hash, idempotencyKey: string): string {
    "pl_" + EncodeToString(sha("paritylab:stripe:" + idempotencyKey))
  }

  function CorrelationOf(sha: string -> Hash, idempotencyKey: string): string {
    "plcorr_" + EncodeToString(sha("paritylab:stripe:" + idempotencyKey)[..12])
  }

  /** Different keys ask the gateway under different keys, if their digests differ. */
  lemma GatewayKeysDiffer(sha: string -> Hash, a: string, b: string)
    requires sha("paritylab:stripe:" + a) == sha("paritylab:stripe:" + b) ==> a == b
    ensures GatewayKey(sha, a) == GatewayKey(sha, b) <==> a == b
  {
    var x, y := sha("paritylab:stripe:" + a), sha("paritylab:stripe:" + b);
    if GatewayKey(sha, a) == GatewayKey(sha, b) {
      assert EncodeToString(x) == GatewayKey(sha, a)[3..] && EncodeToString(y) == GatewayKey(sha, b)[3..];
      EncodeInjective(x, y);
    }
  }

  /** And are given different correlations, if their digests differ in the first twelve bytes. */
  lemma CorrelationsDiffer(sha: string -> Hash, a: string, b: string)
    requires sha("paritylab:stripe:" + a)[..12] == sha("paritylab:stripe:" + b)[..12] ==> a == b
    ensures CorrelationOf(sha, a) == CorrelationOf(sha, b) <==> a == b
  {
    var x, y := sha("paritylab:stripe:" + a)[..12], sha("paritylab:stripe:" + b)[..12];
    if CorrelationOf(sha, a) == CorrelationOf(sha, b) {
      assert EncodeToString(x) == CorrelationOf(sha, a)[7..] && EncodeToString(y) == CorrelationOf(sha, b)[7..];
      EncodeInjective(x, y);
    }
  }

  datatype IntentRequest = IntentRequest(
    projectID: string, connected: bool, amount: int, currency: string, idempotencyKey: string, body: string)

  type Gateway = (string, int, string) -> Option<Intent>

  /** How a request for a Stripe run is answered, and what store it leaves: refused in order
      for what is wrong with it, replayed, or answered with a new run about the intent that the
      gateway gives for the caller's key. A gateway that fails costs one identifier. */
  ghost predicate IntentAnswer(sha: string -> Hash, s: Store, q: IntentRequest, gateway: Gateway, now: int, reply: Reply,
                               s': Store)
    requires Aligned(s)
  {
    if q.idempotencyKey == "" then reply == Refused(KeyMissing) && s' == s
    else if !(1 <= q.amount <= 99_999_999) then reply == Refused(InvalidAmount) && s' == s
    else if !(|q.currency| == 3 && forall c :: c in q.currency ==> 'a' <= c <= 'z') then
      reply == Refused(InvalidCurrency) && s' == s
    else
      var scope := ScopeOf(q.projectID);
      var missing := Replay(s, scope, sha(q.idempotencyKey), sha(q.body)) == Missing;
      if missing && !q.connected then reply == Refused(ConnectionUnknown) && s' == s
      else
        var intent := gateway(GatewayKey(sha, q.idempotencyKey), q.amount, q.currency);
        if missing && (intent.None? || !("pi_" <= intent.value.id)) then
          reply == Refused(GatewayFailed) && s' == NextRunID(s).0
        else
          && CreatedOnce(s, scope, sha(q.idempotencyKey), sha(q.body), now, reply, s')
          && (missing ==>
                && reply.Replied? && reply.run.stripeObjectID == intent.value.id
                && Owned(s, q.projectID, reply.run.id, s')
                && Get(s'.correlationByRun, reply.run.id) == CorrelationOf(sha, q.idempotencyKey)
                && (Consistent(s) ==> RunQueued(s.queue.table, s'.queue.table, reply.run, VerificationQueued, now)))
  }

  /** The gateway gives each intent under one key only, as Stripe does. */
  ghost predicate OneKeyEachIntent(gateway: Gateway) {
    forall k, l, a, b, c, d :: SameIntent(gateway(k, a, c), gateway(l, b, d)) ==> k == l
  }

  predicate SameIntent(x: Option<Intent>, y: Option<Intent>) {
    x.Some? && y.Some? && x.value.id == y.value.id
  }

  /** One request with its answer: the stores before and after it, and its time. */
  datatype IntentCall = IntentCall(s: Store, q: IntentRequest, now: int, reply: Reply, after: Store) {
    function Object(): string {
      if reply.Replied? then reply.run.stripeObjectID else ""
    }

    function Correlation(): string {
      if reply.Replied? then Get(after.correlationByRun, reply.run.id) else ""
    }
  }

  /** A call that has created a run. */
  ghost predicate Creates(sha: string -> Hash, gateway: Gateway, c: IntentCall) {
    Aligned(c.s) && IntentAnswer(sha, c.s, c.q, gateway, c.now, c.reply, c.after) && c.reply.Replied? && !c.reply.replayed
  }

  /** Two requests that create runs, on whatever stores and at whatever times, whoever made
      them. Under different keys they create runs about different objects, with different
      correlations; so a webhook that fits one of them does not fit the other. Under one key,
      for one amount and currency, both are about the same intent. */
  lemma KeysGetTheirOwnIntents(sha: string -> Hash, gateway: Gateway, c: IntentCall, d: IntentCall)
    requires sha("paritylab:stripe:" + c.q.idempotencyKey)[..12] == sha("paritylab:stripe:" + d.q.idempotencyKey)[..12]
      ==> c.q.idempotencyKey == d.q.idempotencyKey
    requires Creates(sha, gateway, c) && Creates(sha, gateway, d) && OneKeyEachIntent(gateway)
    ensures c.q.idempotencyKey != d.q.idempotencyKey ==> c.Object() != d.Object() && c.Correlation() != d.Correlation()
    ensures c.q.idempotencyKey == d.q.idempotencyKey && c.q.amount == d.q.amount && c.q.currency == d.q.currency ==>
      c.Object() == d.Object() && c.Correlation() == d.Correlation()
  {
    hide Creates, GatewayKey, CorrelationOf;
    AboutItsIntent(sha, gateway, c);
    AboutItsIntent(sha, gateway, d);
    GatewayKeysDiffer(sha, c.q.idempotencyKey, d.q.idempotencyKey);
    CorrelationsDiffer(sha, c.q.idempotencyKey, d.q.idempotencyKey);
    assert c.q.idempotencyKey != d.q.idempotencyKey ==>
      !SameIntent(AskedFor(sha, gateway, c), AskedFor(sha, gateway, d));
  }

  /** What the gateway answers to a call. */
  function AskedFor(sha: string -> Hash, gateway: Gateway, c: IntentCall): Option<Intent> {
    gateway(GatewayKey(sha, c.q.idempotencyKey), c.q.amount, c.q.currency)
  }

  lemma AboutItsIntent(sha: string -> Hash, gateway: Gateway, c: IntentCall)
    requires Creates(sha, gateway, c)
    ensures AskedFor(sha, gateway, c).Some? && c.Object() == AskedFor(sha, gateway, c).value.id
    ensures c.Correlation() == CorrelationOf(sha, c.q.idempotencyKey)
  {
    hide Consistent, RunQueued, GatewayKey, CorrelationOf, Created, ValidCurrency, Lookup, Aligned;
  }

  class Service {
    const repo: MemoryRepository
    const sha: string -> Hash

    constructor (repo: MemoryRepository, sha: string -> Hash)
      ensures this.repo == repo && this.sha == sha
    {
      this.repo := repo;
      this.sha := sha;
    }

    method Replayed(projectID: string, keyHash: Hash, requestHash: Hash) returns (answer: Creation)
      requires repo.Valid()
      ensures answer == Replay(repo.State(), ScopeOf(projectID), keyHash, requestHash)
    {
      if projectID == "" {
        answer := repo.ReplayRun(keyHash, requestHash);
      } else {
        answer := repo.ReplayRunForProject(projectID, keyHash, requestHash);
      }
    }

    method Persist(projectID: string, keyHash: Hash, requestHash: Hash, bundle: RunBundle, now: int) returns (answer: Creation)
      requires repo.Valid()
      modifies repo
      ensures repo.Valid()
      ensures (repo.State(), answer)
           == StoreSpec.CreateRun(old(repo.State()), ScopeOf(projectID), keyHash, requestHash, bundle, now)
    {
      if projectID == "" {
        answer := repo.CreateRun(keyHash, requestHash, bundle, now);
      } else {
        answer := repo.CreateRunForProject(projectID, keyHash, requestHash, bundle, now);
      }
    }

    /** Creation of a simulated run. Refused requests change nothing. */
    method CreateRun(projectID: string, scenarioID: string, requested: Fault, idempotencyKey: string, body: string, now: int)
      returns (reply: Reply)
      requires repo.Valid()
      modifies repo
      ensures repo.Valid()
      ensures var fault := if requested == Unset then NoFault else requested;
        if idempotencyKey == "" then reply == Refused(KeyMissing) && repo.State() == old(repo.State())
        else if SupportedFaults(scenarioID).None? then reply == Refused(ScenarioUnknown) && repo.State() == old(repo.State())
        else if fault !in SupportedFaults(scenarioID).value then
          reply == Refused(FaultUnsupported) && repo.State() == old(repo.State())
        else CreatedOnce(old(repo.State()), ScopeOf(projectID), sha(idempotencyKey), sha(body), now, reply, repo.State())
             && (reply.Replied? && !reply.replayed ==>
                   && reply.run.fault == fault && reply.run.scenarioID == scenarioID
                   && Owned(old(repo.State()), projectID, reply.run.id, repo.State())
                   && (old(repo.nextRun) <= INT64_MAX ==> InDemo(reply.run, old(repo.nextRun)))
                   && (Consistent(old(repo.State())) ==>
                         RunQueued(old(repo.outbox), repo.outbox, reply.run, RunPersisted, now)))
    {
      hide Insert, WellFormedBundle, Shows, Replay, StoreSpec.CreateRun, Aligned, NumberFromRunID, HasAssertion,
           EventCountFor, Consistent, RunQueued, Created, RunID, ScoreForFault, Pad6, Owned;
      if idempotencyKey == "" {
        return Refused(KeyMissing);
      }
      var faults := SupportedFaults(scenarioID);
      if faults.None? {
        return Refused(ScenarioUnknown);
      }
      var fault := if requested == Unset then NoFault else requested;
      if fault !in faults.value {
        return Refused(FaultUnsupported);
      }
      ScenariosOfferSupportedFaults(scenarioID, fault);
      var keyHash, requestHash := sha(idempotencyKey), sha(body);
      var answer := Replayed(projectID, keyHash, requestHash);
      match answer {
        case Conflict => return Refused(KeyInUse);
        case Granted(run, _) => return Replied(run, true);
        case Missing =>
      }
      ghost var before := repo.State();
      var id := repo.NextRunID();
      DemoNumber(before.nextRun);
      var number := NumberFromRunID(id);
      var bundle := BuildRunBundle(id, if number < 0 then 0 else number, scenarioID, fault, DEMO_EPOCH + number * 23 * MINUTE);
      MissingInserts(before, ScopeOf(projectID), keyHash, requestHash, bundle, now);
      answer := Persist(projectID, keyHash, requestHash, bundle, now);
      JustCreated(before, ScopeOf(projectID), keyHash, requestHash, bundle, now, repo.State());
      JustOwned(before, projectID, keyHash, requestHash, bundle, now);
      match answer {
        case Conflict => return Refused(KeyInUse);
        case Granted(run, replayed) => return Replied(run, replayed);
      }
    }

    /** Creation of a run about a real PaymentIntent. The gateway answers for the key that it
        is given, so a request that is repeated asks for the same intent. */
    method CreatePaymentIntentRun(projectID: string, connected: bool, amount: int, currency: string, idempotencyKey: string,
                                  body: string, gateway: (string, int, string) -> Option<Intent>, now: int)
      returns (reply: Reply)
      requires repo.Valid()
      modifies repo
      ensures repo.Valid()
      ensures IntentAnswer(sha, old(repo.State()), IntentRequest(projectID, connected, amount, currency, idempotencyKey, body),
                           gateway, now, reply, repo.State())
    {
      hide Insert, WellFormedBundle, GatewayKey, CorrelationOf, ValidCurrency, NumberFromRunID, Replay,
           StoreSpec.CreateRun, Aligned, System.BuiltFor, Consistent, RunQueued, Created, RunID, Owned;
      if idempotencyKey == "" {
        return Refused(KeyMissing);
      }
      if amount <= 0 || amount > 99_999_999 {
        return Refused(InvalidAmount);
      }
      ValidCurrencyIs(currency);
      if !ValidCurrency(currency) {
        return Refused(InvalidCurrency);
      }
      var keyHash, requestHash := sha(idempotencyKey), sha(body);
      var answer := Replayed(projectID, keyHash, requestHash);
      match answer {
        case Conflict => return Refused(KeyInUse);
        case Granted(run, _) => return Replied(run, true);
        case Missing =>
      }
      if !connected {
        return Refused(ConnectionUnknown);
      }
      ghost var before := repo.State();
      var id := repo.NextRunID();
      DemoNumber(before.nextRun);
      var correlationID := CorrelationOf(sha, idempotencyKey);
      var intent := gateway(GatewayKey(sha, idempotencyKey), amount, currency);
      if intent.None? || !("pi_" <= intent.value.id) {
        return Refused(GatewayFailed);
      }
      var number := NumberFromRunID(id);
      var bundle := StripeBundle(id, if number < 0 then 0 else number, amount, currency, intent.value, correlationID, now);
      MissingInserts(before, ScopeOf(projectID), keyHash, requestHash, bundle, now);
      answer := Persist(projectID, keyHash, requestHash, bundle, now);
      JustCreated(before, ScopeOf(projectID), keyHash, requestHash, bundle, now, repo.State());
      JustOwned(before, projectID, keyHash, requestHash, bundle, now);
      BuiltParts(bundle, id);
      CorrelationInserted(NextRunID(before).0, ScopeOf(projectID), keyHash, requestHash, bundle, now);
      match answer {
        case Conflict => return Refused(KeyInUse);
        case Granted(run, replayed) => return Replied(run, replayed);
      }
    }

    /** One seed run, unless it is there. */
    method SeedRun(index: nat, now: int) returns (ok: bool)
      requires index < 3 && repo.Valid() && Consistent(repo.State())
      modifies repo
      ensures repo.Valid() && Consistent(repo.State()) && Evolves(old(repo.State()), repo.State())
      ensures RunID(index + 1) in old(repo.runs) ==> ok && repo.State() == old(repo.State())
      ensures SeedsUpTo(old(repo.State()), sha, index) && SeedKeysDiffer(sha) ==> ok && SeedsUpTo(repo.State(), sha, index + 1)
    {
      hide Consistent, Evolves, Insert, RunID, WellFormedBundle, Shows, RunNames, StoreSpec.CreateRun, SeedsUpTo,
           SeedKeysDiffer,
           HasAssertion, EventCountFor, SeedKey, SeedRequest;
      ghost var s := repo.State();
      NothingEvolves(s);
      SeedNotYet(s, sha, index);
      var id := RunID(index + 1);
      SeedRunName(index + 1);
      if id in repo.runs {
        return true;
      }
      var (scenarioID, fault) := SeedAt(index);
      var bundle := BuildRunBundle(id, index + 1, scenarioID, fault, DEMO_EPOCH + index * 17 * MINUTE);
      var answer := repo.CreateRun(sha(SeedKey(index)), sha(SeedRequest(index)), bundle, now);
      Executions.AlignedOf(s);
      Executions.SeedNamed(index + 1, s.nextRun);
      Executions.InsertGood(s, System.Request(Public, sha(SeedKey(index)), sha(SeedRequest(index))), bundle, now);
      SeedStored(s, sha, index, bundle, now);
      return answer != Conflict;
    }

    /** The seed runs exist after a start; an existing one is left alone. */
    method EnsureSeedRuns(now: int) returns (ok: bool)
      requires repo.Valid() && Consistent(repo.State())
      modifies repo
      ensures repo.Valid() && Consistent(repo.State()) && Evolves(old(repo.State()), repo.State())
      ensures SeedsPresent(old(repo.runs)) ==> ok && repo.State() == old(repo.State())
      ensures old(repo.State()) == EMPTY && SeedKeysDiffer(sha) ==>
        ok && ThreeSeeds(repo.State(), sha)
    {
      hide Consistent, Evolves, RunID, EMPTY, SeedsUpTo, SeedKeysDiffer, ThreeSeeds;
      ghost var first := repo.State();
      NothingEvolves(first);
      NoSeeds(sha);
      for index := 0 to 3
        invariant repo.Valid() && Consistent(repo.State()) && Evolves(first, repo.State())
        invariant SeedsPresent(first.runs) ==> repo.State() == first
        invariant first == EMPTY && SeedKeysDiffer(sha) ==> SeedsUpTo(repo.State(), sha, index)
      {
        ghost var s := repo.State();
        ok := SeedRun(index, now);
        EvolvesTransitive(first, s, repo.State());
        if !ok {
          return false;
        }
      }
      AllSeeds(repo.State(), sha);
      return true;
    }
  }

  lemma JustCreated(s: Store, scope: Scope, keyHash: Hash, requestHash: Hash, b: RunBundle, now: int, s': Store)
    requires System.BuiltFor(b, RunID(s.nextRun)) && s' == Insert(NextRunID(s).0, scope, keyHash, requestHash, b, now)
    ensures Created(s, scope, keyHash, requestHash, b, now, s')
    ensures Consistent(s) ==>
      RunQueued(s.queue.table, s'.queue.table, b.run, if b.topic == NoTopic then RunPersisted else b.topic, now)
  {
    hide Consistent, Insert, System.BuiltFor, RunID, RunQueued;
    assert Created(s, scope, keyHash, requestHash, b, now, s');
    if Consistent(s) {
      CreatedIsQueued(s, scope, keyHash, requestHash, b, now, s');
    }
  }

  lemma JustOwned(s: Store, projectID: string, keyHash: Hash, requestHash: Hash, b: RunBundle, now: int)
    ensures Owned(s, projectID, b.run.id, Insert(NextRunID(s).0, ScopeOf(projectID), keyHash, requestHash, b, now))
  {
    hide RunID, Enqueued, TenantKey;
  }

  /** A simulated run with number n carries that number in its name and in that of its object,
      and starts n times 23 minutes after the epoch of the demonstration. */
  predicate InDemo(run: Run, n: nat) {
    run.id == "run_" + Pad6(n) && run.stripeObjectID == "pi_demo_" + Pad6(n) && run.startedAt == DEMO_EPOCH + n * 23 * MINUTE
  }

  lemma DemoNumber(n: nat)
    ensures RunID(n) == "run_" + Pad6(n) && |RunID(n)| >= 4
    ensures n <= INT64_MAX ==> NumberFromRunID(RunID(n)) == n
  {
    hide Pad6, NumberFromRunID;
    if n <= INT64_MAX {
      NumberOfRunID(n);
    }
  }

  lemma MissingInserts(s: Store, scope: Scope, keyHash: Hash, requestHash: Hash, b: RunBundle, now: int)
    requires Aligned(s) && Replay(s, scope, keyHash, requestHash) == Missing
    ensures Aligned(NextRunID(s).0)
    ensures StoreSpec.CreateRun(NextRunID(s).0, scope, keyHash, requestHash, b, now)
         == (Insert(NextRunID(s).0, scope, keyHash, requestHash, b, now), Granted(b.run, false))
  {
    hide Insert;
  }

  lemma CorrelationInserted(s: Store, scope: Scope, keyHash: Hash, requestHash: Hash, b: RunBundle, now: int)
    ensures Get(Insert(s, scope, keyHash, requestHash, b, now).correlationByRun, b.run.id) == b.correlationID
  {
  }

  // ----- seeds -----

  function SeedAt(index: nat): (string, Fault)
    requires index < 3
  {
    [("checkout-duplicate", Duplicate), ("webhook-disorder", Reorder), ("endpoint-recovery", Timeout)][index]
  }

  function SeedKey(index: nat): string
    requires index < 3
  {
    "paritylab:seed:" + SeedAt(index).0
  }

  function SeedRequest(index: nat): string
    requires index < 3
  {
    SeedAt(index).0 + ":" + Jobs.FaultName(SeedAt(index).1)
  }

  predicate SeedsPresent(runs: Runs) {
    RunID(1) in runs && RunID(2) in runs && RunID(3) in runs
  }

  predicate SeedKeysDiffer(sha: string -> Hash) {
    sha(SeedKey(0)) != sha(SeedKey(1)) && sha(SeedKey(0)) != sha(SeedKey(2)) && sha(SeedKey(1)) != sha(SeedKey(2))
  }

  ghost function SeedNames(n: nat): set<string> {
    set k: nat | 1 <= k <= n :: RunID(k)
  }

  ghost function SeedKeys(sha: string -> Hash, n: nat): set<Hash>
    requires n <= 3
  {
    set k: nat | k < n :: sha(SeedKey(k))
  }

  ghost predicate SeedsUpTo(s: Store, sha: string -> Hash, n: nat)
    requires n <= 3
  {
    && s.runs.Keys == SeedNames(n) && s.idempotency.Keys == SeedKeys(sha, n) && s.nextRun == 4
    && forall k: nat :: k < n ==> SeedStands(s, sha, k)
  }

  /** A run of this scenario and fault, started at this time, which answers to the seed's key. */
  predicate SeedIs(s: Store, sha: string -> Hash, id: string, scenarioID: string, fault: Fault, name: string, started: int) {
    && id in s.runs && s.runs[id].scenarioID == scenarioID && s.runs[id].fault == fault && s.runs[id].startedAt == started
    && sha("paritylab:seed:" + scenarioID) in s.idempotency
    && s.idempotency[sha("paritylab:seed:" + scenarioID)] == Record.Record(sha(scenarioID + ":" + name), id)
  }

  predicate SeedStands(s: Store, sha: string -> Hash, k: nat)
    requires k < 3
  {
    SeedIs(s, sha, RunID(k + 1), SeedAt(k).0, SeedAt(k).1, Jobs.FaultName(SeedAt(k).1), DEMO_EPOCH + k * 17 * MINUTE)
  }

  /** The three seeds in full. */
  predicate ThreeSeeds(s: Store, sha: string -> Hash) {
    && s.runs.Keys == {RunID(1), RunID(2), RunID(3)} && s.nextRun == 4
    && SeedIs(s, sha, RunID(1), "checkout-duplicate", Duplicate, "duplicate", 1_784_367_000_000_000_000)
    && SeedIs(s, sha, RunID(2), "webhook-disorder", Reorder, "reorder", 1_784_368_020_000_000_000)
    && SeedIs(s, sha, RunID(3), "endpoint-recovery", Timeout, "timeout", 1_784_369_040_000_000_000)
  }

  lemma NoSeeds(sha: string -> Hash)
    ensures SeedsUpTo(EMPTY, sha, 0)
  {
    assert SeedNames(0) == {} && SeedKeys(sha, 0) == {};
  }

  lemma AllSeeds(s: Store, sha: string -> Hash)
    ensures SeedsUpTo(s, sha, 3) ==> ThreeSeeds(s, sha)
  {
    hide RunID, SeedKeys, SeedIs;
    assert SeedsUpTo(s, sha, 3) ==> SeedStands(s, sha, 0) && SeedStands(s, sha, 1) && SeedStands(s, sha, 2);
    forall x
      ensures x in SeedNames(3) <==> x in {RunID(1), RunID(2), RunID(3)}
    {
      if x in SeedNames(3) {
        var k: nat :| 1 <= k <= 3 && x == RunID(k);
      }
    }
  }

  lemma SeedRunName(n: nat)
    requires 1 <= n <= 3
    ensures |RunID(n)| >= 4 && RunID(n) !in SeedNames(n - 1)
  {
    forall k: nat | 1 <= k <= n - 1
      ensures RunID(k) != RunID(n)
    {
      RunIDInjective(k, n);
    }
  }

  lemma SeedNotYet(s: Store, sha: string -> Hash, index: nat)
    requires index < 3
    ensures SeedsUpTo(s, sha, index) ==> RunID(index + 1) !in s.runs
  {
    SeedRunName(index + 1);
  }

  lemma SeedKeyIsNew(sha: string -> Hash, index: nat)
    requires index < 3 && SeedKeysDiffer(sha)
    ensures sha(SeedKey(index)) !in SeedKeys(sha, index)
    ensures SeedKeys(sha, index + 1) == SeedKeys(sha, index) + {sha(SeedKey(index))}
  {
    hide SeedKey;
  }

  lemma OneSeedMore(index: nat)
    ensures SeedNames(index + 1) == SeedNames(index) + {RunID(index + 1)}
  {
    hide RunID;
  }

  lemma SeedStored(s: Store, sha: string -> Hash, index: nat, b: RunBundle, now: int)
    requires index < 3 && Aligned(s) && b.run.id == RunID(index + 1) && FitsSeed(b.run, index)
    ensures SeedKeysDiffer(sha) && SeedsUpTo(s, sha, index) ==>
      var (s', answer) := StoreSpec.CreateRun(s, Public, sha(SeedKey(index)), sha(SeedRequest(index)), b, now);
      SeedsUpTo(s', sha, index + 1) && answer != Conflict
  {
    if SeedKeysDiffer(sha) && SeedsUpTo(s, sha, index) {
      FirstSeedStored(s, sha, index, b, now);
    }
  }

  predicate FitsSeed(run: Run, index: nat)
    requires index < 3
  {
    run.scenarioID == SeedAt(index).0 && run.fault == SeedAt(index).1 && run.startedAt == DEMO_EPOCH + index * 17 * MINUTE
  }

  lemma SeedsStand(s: Store, sha: string -> Hash, index: nat, b: RunBundle, now: int)
    requires index < 3 && SeedKeysDiffer(sha) && SeedsUpTo(s, sha, index) && b.run.id == RunID(index + 1)
    requires FitsSeed(b.run, index)
    ensures var s' := Insert(s, Public, sha(SeedKey(index)), sha(SeedRequest(index)), b, now);
      forall k: nat :: k <= index ==> SeedStands(s', sha, k)
  {
    hide RunID, SeedNames, SeedKeys, Enqueued, Jobs.FaultName;
    var s' := Insert(s, Public, sha(SeedKey(index)), sha(SeedRequest(index)), b, now);
    forall k: nat | k <= index
      ensures SeedStands(s', sha, k)
    {
      RunIDInjective(k + 1, index + 1);
      if k < index {
        assert SeedStands(s, sha, k);
      }
    }
  }

  lemma FirstSeedStored(s: Store, sha: string -> Hash, index: nat, b: RunBundle, now: int)
    requires index < 3 && SeedKeysDiffer(sha) && SeedsUpTo(s, sha, index) && Aligned(s) && b.run.id == RunID(index + 1)
    requires FitsSeed(b.run, index)
    ensures var (s', answer) := StoreSpec.CreateRun(s, Public, sha(SeedKey(index)), sha(SeedRequest(index)), b, now);
      SeedsUpTo(s', sha, index + 1) && answer != Conflict
  {
    hide RunID, SeedKey, SeedRequest, SeedKeys, SeedNames, SeedKeysDiffer, Enqueued, Aligned, SeedStands, FitsSeed;
    SeedKeyIsNew(sha, index);
    OneSeedMore(index);
    SeedRunName(index + 1);
    SeedsStand(s, sha, index, b, now);
    var record := Record.Record(sha(SeedRequest(index)), b.run.id);
    assert s.runs[b.run.id := b.run].Keys == s.runs.Keys + {b.run.id};
    assert s.idempotency[sha(SeedKey(index)) := record].Keys == s.idempotency.Keys + {sha(SeedKey(index))};
  }
}
