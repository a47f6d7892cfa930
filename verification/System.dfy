/** The whole pipeline as one transition system: any number of workers and of callers that
    interleave their repository operations, a clock, crashes, lost leases, and operations
    that commit but are reported as errors. */
module System {
  import opened Options
  import opened Hex
  import opened Identifiers
  import opened Domain
  import opened Outbox
  import opened StoreSpec
  import opened Verification
  import opened Jobs
  import opened Consistency

  /** What stays fixed along an execution. Worker processes are numbered; owner gives the
      configured worker ID of each. */
  datatype Config = Config(
    signer: Signer, sha: string -> Hash, owner: nat -> string, lease: int, maxAttempts: nat)

  /** Where a worker stands with the message it has claimed. */
  datatype Phase =
    | Loading
    | Delivering(run: Run, fault: Fault, queue: seq<Delivery>, tally: RelayResult)
    | Finished(outcome: Outcome)

  /** `lost` is the error that the heartbeat loop holds; `beatAt` is when the lease was last
      claimed or renewed. */
  datatype Worker = Idle | Busy(message: OutboxMessage, phase: Phase, lost: bool, beatAt: int)

  datatype Request = Request(scope: Scope, keyHash: Hash, requestHash: Hash)

  /** Where a caller of run creation stands between its three locked steps. */
  datatype Caller =
    | Asked(request: Request)
    | Missed(request: Request)
    | Holding(request: Request, id: string)
    | Answered(request: Request, answer: Creation)

  /** History for the proofs: at which attempts a message was sent back, and how often an
      expired lease of it was taken over. */
  datatype Log = Log(retries: map<string, set<nat>>, takeovers: map<string, nat>)

  datatype Sys = Sys(store: Store, workers: map<nat, Worker>, callers: map<nat, Caller>, now: int, log: Log)

  datatype Action =
    | Tick(elapsed: nat)
    | Claim(w: nat, claimed: Option<OutboxMessage>)
    | Beat(w: nat, failed: bool)
    | Load(w: nat)
    | DeliverNext(w: nat)
    | RecordVerdict(w: nat)
    | Abort(w: nat)
    | Conclude(w: nat)
    | Crash(w: nat)
    | Ingress(receipt: WebhookReceipt)
    | Ask(c: nat, request: Request)
    | TryReplay(c: nat)
    | Allocate(c: nat)
    | Create(c: nat, bundle: RunBundle)
    | GiveUp(c: nat)
    | Seed(n: nat, keyHash: Hash, requestHash: Hash, bundle: RunBundle)

  function Items(s: Sys): Table {
    s.store.queue.table
  }

  predicate IsBusy(s: Sys, w: nat) {
    w in s.workers && s.workers[w].Busy?
  }

  function WithTable(s: Store, t: Table): Store {
    s.(queue := s.queue.(table := t))
  }

  function Retries(log: Log, id: string): set<nat> {
    if id in log.retries then log.retries[id] else {}
  }

  function Takeovers(log: Log, id: string): nat {
    if id in log.takeovers then log.takeovers[id] else 0
  }

  // ----- worker steps -----

  ghost predicate ClaimStep(cfg: Config, s: Sys, w: nat, claimed: Option<OutboxMessage>, s': Sys) {
    && !IsBusy(s, w)
    && Claims(Items(s), cfg.owner(w), cfg.lease, JOB_TOPICS, s.now, Items(s'), claimed)
    && s'.store == WithTable(s.store, Items(s')) && s'.callers == s.callers && s'.now == s.now
    && match claimed
       case None => s'.workers == s.workers && s'.log == s.log
       case Some(m) =>
         && s'.workers == s.workers[w := Busy(m, Loading, false, s.now)]
         && s'.log == if Items(s)[m.id].message.lockedBy == "" then s.log
                      else s.log.(takeovers := s.log.takeovers[m.id := Takeovers(s.log, m.id) + 1])
  }

  /** A renewal that fails, or that the repository refuses, ends the heartbeat loop with an error. */
  predicate BeatStep(cfg: Config, s: Sys, w: nat, failed: bool, s': Sys) {
    IsBusy(s, w) && !s.workers[w].lost &&
    var b := s.workers[w];
    var (t, alive) := Heartbeat(Items(s), b.message.id, cfg.owner(w), s.now);
    if failed || !alive then s' == s.(workers := s.workers[w := b.(lost := true)])
    else s' == s.(store := WithTable(s.store, t), workers := s.workers[w := b.(beatAt := s.now)])
  }

  function AtPhase(s: Sys, w: nat, phase: Phase): map<nat, Worker>
    requires IsBusy(s, w)
  {
    s.workers[w := s.workers[w].(phase := phase)]
  }

  /** A verification job looks up its run and prepares the deliveries. */
  function Prepared(cfg: Config, s: Sys, m: OutboxMessage): Phase {
    if !m.payload.Fields? || m.payload.runID == "" || m.payload.runID !in s.store.runs then Finished(Transient)
    else
      var run := s.store.runs[m.payload.runID];
      var fault := EffectiveFault(m.payload, run);
      if !Supported(fault) then Finished(Transient)
      else Delivering(run, fault, Deliveries(cfg.signer, Envelope(run, cfg.sha), fault), Start(fault))
  }

  ghost predicate LoadStep(cfg: Config, s: Sys, w: nat, s': Sys) {
    IsBusy(s, w) && s.workers[w].phase == Loading && Aligned(s.store) &&
    var m := s.workers[w].message;
    match m.topic
    case WebhookReceived =>
      if !WebhookJobValid(m) then s' == s.(workers := AtPhase(s, w, Finished(Permanent)))
      else
        var (store, result) := ProcessStripeWebhook(s.store, m.payload.stripeEventID, s.now);
        s' == s.(store := store, workers := AtPhase(s, w, Finished(if result.Some? then Success else Transient)))
    case RunPersisted => s' == s.(workers := AtPhase(s, w, Prepared(cfg, s, m)))
    case VerificationQueued => s' == s.(workers := AtPhase(s, w, Prepared(cfg, s, m)))
    case _ => s' == s.(workers := AtPhase(s, w, Finished(Success)))
  }

  predicate DeliverStep(cfg: Config, s: Sys, w: nat, s': Sys) {
    IsBusy(s, w) && s.workers[w].phase.Delivering? && s.workers[w].phase.queue != [] &&
    var p := s.workers[w].phase;
    var (effects, receipt) := Deliver(s.store.merchantEffects, cfg.signer, p.queue[0]);
    s' == s.(store := s.store.(merchantEffects := effects),
             workers := AtPhase(s, w, p.(queue := p.queue[1..], tally := Tally(p.tally, receipt))))
  }

  predicate RecordStep(cfg: Config, s: Sys, w: nat, s': Sys) {
    IsBusy(s, w) && s.workers[w].phase.Delivering? && s.workers[w].phase.queue == [] &&
    var p := s.workers[w].phase;
    var (store, ok) := RecordVerification(s.store, p.run.id, VerificationAssertion(p.tally, p.fault));
    s' == s.(store := store, workers := AtPhase(s, w, Finished(if ok then Success else Transient)))
  }

  /** Cancellation, a repository error, or a commit that is reported as an error: possible at
      any moment, whatever has been committed so far. */
  predicate AbortStep(s: Sys, w: nat, s': Sys) {
    IsBusy(s, w) && s' == s.(workers := AtPhase(s, w, Finished(Transient)))
  }

  /** A heartbeat error wins over the outcome of the operation. */
  function FinalOutcome(b: Worker): Outcome
    requires b.Busy? && b.phase.Finished?
  {
    if b.lost then Transient else b.phase.outcome
  }

  predicate ConcludeStep(cfg: Config, s: Sys, w: nat, s': Sys) {
    IsBusy(s, w) && s.workers[w].phase.Finished? &&
    var b := s.workers[w];
    var id, owner := b.message.id, cfg.owner(w);
    && s'.workers == s.workers[w := Idle] && s'.callers == s.callers && s'.now == s.now
    && s'.store == WithTable(s.store, Items(s'))
    && match FinalOutcome(b)
       case Success => Items(s') == Complete(Items(s), id, owner).0 && s'.log == s.log
       case Permanent => Items(s') == Fail(Items(s), id, owner).0 && s'.log == s.log
       case Transient =>
         if b.message.attempts >= cfg.maxAttempts then Items(s') == Fail(Items(s), id, owner).0 && s'.log == s.log
         else
           var (t, ok) := Retry(Items(s), id, owner, RetryDelay(b.message.attempts), s.now);
           && Items(s') == t
           && s'.log == if ok
                        then s.log.(retries := s.log.retries[id := Retries(s.log, id) + {b.message.attempts}])
                        else s.log
  }

  predicate CrashStep(s: Sys, w: nat, s': Sys) {
    s' == s.(workers := s.workers[w := Idle])
  }

  // ----- caller steps -----

  predicate At(s: Sys, c: nat) {
    c in s.callers
  }

  predicate ReplayStep(s: Sys, c: nat, s': Sys) {
    At(s, c) && s.callers[c].Asked? && Aligned(s.store) &&
    var q := s.callers[c].request;
    var answer := Replay(s.store, q.scope, q.keyHash, q.requestHash);
    s' == s.(callers := s.callers[c := if answer == Missing then Missed(q) else Answered(q, answer)])
  }

  predicate AllocateStep(s: Sys, c: nat, s': Sys) {
    At(s, c) && s.callers[c].Missed? &&
    var (store, id) := NextRunID(s.store);
    s' == s.(store := store, callers := s.callers[c := Holding(s.callers[c].request, id)])
  }

  /** What buildRunBundle and its Stripe rewriting promise about a bundle for this identifier. */
  predicate BuiltFor(b: RunBundle, id: string) {
    && b.run.id == id && WellFormedBundle(b) && SupportedFault(b.run.fault)
    && b.verificationFault == b.run.fault && IsRunTopic(RunTopic(b.topic))
  }

  predicate CreateStep(s: Sys, c: nat, b: RunBundle, s': Sys) {
    At(s, c) && s.callers[c].Holding? && BuiltFor(b, s.callers[c].id) && Aligned(s.store) &&
    var q := s.callers[c].request;
    var (store, answer) := CreateRun(s.store, q.scope, q.keyHash, q.requestHash, b, s.now);
    s' == s.(store := store, callers := s.callers[c := Answered(q, answer)])
  }

  /** ensureSeedRuns, which runs before requests are served, for one of its three runs. */
  predicate SeedStep(s: Sys, n: nat, keyHash: Hash, requestHash: Hash, b: RunBundle, s': Sys) {
    && 1 <= n <= 3 && RunID(n) !in s.store.runs && BuiltFor(b, RunID(n)) && Aligned(s.store)
    && s' == s.(store := CreateRun(s.store, Public, keyHash, requestHash, b, s.now).0)
  }

  // ----- the system -----

  ghost predicate Next(cfg: Config, s: Sys, a: Action, s': Sys) {
    match a
    case Tick(elapsed) => s' == s.(now := s.now + elapsed)
    case Claim(w, claimed) => ClaimStep(cfg, s, w, claimed, s')
    case Beat(w, failed) => BeatStep(cfg, s, w, failed, s')
    case Load(w) => LoadStep(cfg, s, w, s')
    case DeliverNext(w) => DeliverStep(cfg, s, w, s')
    case RecordVerdict(w) => RecordStep(cfg, s, w, s')
    case Abort(w) => AbortStep(s, w, s')
    case Conclude(w) => ConcludeStep(cfg, s, w, s')
    case Crash(w) => CrashStep(s, w, s')
    case Ingress(r) =>
      r.eventID != "" && r.eventType != "" && s' == s.(store := MarkWebhookSeen(s.store, r, s.now).0)
    case Ask(c, q) => !At(s, c) && s' == s.(callers := s.callers[c := Asked(q)])
    case TryReplay(c) => ReplayStep(s, c, s')
    case Allocate(c) => AllocateStep(s, c, s')
    case Create(c, b) => CreateStep(s, c, b, s')
    case GiveUp(c) => s' == s.(callers := s.callers - {c})
    case Seed(n, k, h, b) => SeedStep(s, n, k, h, b, s')
  }

  ghost predicate Init(s: Sys) {
    s.store == EMPTY && s.workers == map[] && s.callers == map[] && s.log == Log(map[], map[])
  }

  ghost predicate NextAt(cfg: Config, states: seq<Sys>, actions: seq<Action>, i: nat)
    requires |states| == |actions| + 1 && i < |actions|
  {
    Next(cfg, states[i], actions[i], states[i + 1])
  }

  ghost predicate Execution(cfg: Config, states: seq<Sys>, actions: seq<Action>) {
    && |states| == |actions| + 1 && Init(states[0])
    && forall i: nat :: i < |actions| ==> NextAt(cfg, states, actions, i)
  }

  /** Worker IDs are not empty: the worker constructor replaces an empty one. */
  ghost predicate NamedWorkers(cfg: Config) {
    forall w: nat :: cfg.owner(w) != ""
  }
}
