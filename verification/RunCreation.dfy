/** Idempotent run creation over whole executions: three separately locked steps, which
    callers interleave as they like, behave as one atomic map from keys to runs. */
module RunCreation {
  import opened Options
  import opened Hex
  import opened Identifiers
  import opened Domain
  import opened Outbox
  import opened StoreSpec
  import opened Consistency
  import opened System
  import opened Executions

  // ----- the map -----

  function Entry(s: Store, q: Request): Option<Record> {
    Lookup(s, q.scope, q.keyHash)
  }

  predicate SameKey(q: Request, p: Request) {
    q.scope == p.scope && q.keyHash == p.keyHash
  }

  ghost predicate SameMap(s: Store, s': Store) {
    forall q :: Entry(s', q) == Entry(s, q)
  }

  lemma NewValue<K, V>(m: map<K, V>, k: K, v: V, x: K, same: bool)
    requires same <==> k == x
    ensures (x in m[k := v]) == (same || x in m)
    ensures same ==> m[k := v][x] == v
    ensures !same && x in m ==> m[k := v][x] == m[x]
  {
  }

  lemma Remembered(s: Store, q: Request, record: Record)
    ensures var s' := Remember(s, q.scope, q.keyHash, record);
      match q.scope
      case Public => s'.idempotency == s.idempotency[q.keyHash := record] && s'.tenantIdempotency == s.tenantIdempotency
      case Project(x) =>
        s'.idempotency == s.idempotency && s'.tenantIdempotency == s.tenantIdempotency[TenantKey(x, q.keyHash) := record]
  {
  }

  /** A new record changes the entry of its own key and of no other. */
  lemma RememberEntry(s: Store, q: Request, record: Record, p: Request)
    ensures Entry(Remember(s, q.scope, q.keyHash, record), p) == if SameKey(p, q) then Some(record) else Entry(s, p)
  {
    hide TenantKey, Remember;
    Remembered(s, q, record);
    match (q.scope, p.scope) {
      case (Public, Public) =>
        NewValue(s.idempotency, q.keyHash, record, p.keyHash, SameKey(p, q));
      case (Project(x), Project(y)) =>
        TenantKeyInjective(x, q.keyHash, y, p.keyHash);
        NewValue(s.tenantIdempotency, TenantKey(x, q.keyHash), record, TenantKey(y, p.keyHash), SameKey(p, q));
      case _ =>
    }
  }

  /** Different keys name different runs. */
  lemma KeysNameDifferentRuns(s: Store, q: Request, p: Request)
    requires OneKeyEach(s.runs.Keys, s.idempotency, s.tenantIdempotency) && Aligned(s)
    requires Entry(s, q).Some? && Entry(s, p).Some?
    ensures Entry(s, q).value.runID == Entry(s, p).value.runID <==> SameKey(q, p)
  {
    var r := Entry(s, q).value.runID;
    if r == Entry(s, p).value.runID {
      var open, tenant := KeysOf(s.idempotency, r), KeysOf(s.tenantIdempotency, r);
      assert |open| + |tenant| == 1;
      match (q.scope, p.scope) {
        case (Public, Public) => OnlyElement(open, q.keyHash, p.keyHash);
        case (Project(x), Project(y)) =>
          OnlyElement(tenant, TenantKey(x, q.keyHash), TenantKey(y, p.keyHash));
          TenantKeyInjective(x, q.keyHash, y, p.keyHash);
        case (Public, Project(y)) =>
          NotBothIn(open, tenant, q.keyHash, TenantKey(y, p.keyHash));
        case (Project(x), Public) =>
          NotBothIn(open, tenant, p.keyHash, TenantKey(x, q.keyHash));
      }
    }
  }

  lemma OnlyElement<T>(s: set<T>, a: T, b: T)
    requires |s| <= 1 && a in s && b in s
    ensures a == b
  {
    assert |s - {a}| == |s| - 1;
    assert s - {a} == {};
  }

  lemma NotBothIn<S, T>(s: set<S>, t: set<T>, a: S, b: T)
    requires |s| + |t| <= 1
    ensures !(a in s && b in t)
  {
    if a in s {
      assert |s| == |s - {a}| + 1;
      assert t == {};
    }
  }

  /** A run is in the project whose key it answers to, and a public one in none. */
  lemma OwnedByItsProject(s: Store, q: Request)
    requires Consistent(s) && Entry(s, q).Some?
    ensures var r := Entry(s, q).value.runID;
      match q.scope case Public => r !in s.projectByRun case Project(id) => r in s.projectByRun && s.projectByRun[r] == id
  {
    hide KeysOK, BooksOK, MailOK, ProjectionsTell, ResultsTell, TenantKey;
  }

  // ----- one atomic operation -----

  /** What a single atomic operation on the map may answer, and what it leaves. */
  ghost predicate Atomic(s: Store, q: Request, answer: Creation, s': Store) {
    match Entry(s, q)
    case Some(record) =>
      && s' == s
      && (if record.requestHash != q.requestHash then answer == Conflict
          else answer.Granted? && answer.replayed && record.runID in s.runs && answer.run == s.runs[record.runID])
    case None =>
      && answer.Granted? && !answer.replayed && answer.run.id !in s.runs
      && s'.runs == s.runs[answer.run.id := answer.run]
      && (forall p :: Entry(s', p) == if SameKey(p, q) then Some(Record(q.requestHash, answer.run.id)) else Entry(s, p))
      && OneMessageMore(s.queue, s'.queue, answer.run.id)
  }

  /** Exactly one message is new, and it is the job of this run. */
  predicate OneMessageMore(q: Queue, q': Queue, runID: string) {
    var id := OutboxID(q.next);
    && id !in q.table && id in q'.table && q'.table == q.table[id := q'.table[id]]
    && q'.table[id].message.payload.Fields? && q'.table[id].message.payload.runID == runID
  }

  lemma InsertAtomic(s: Store, q: Request, b: RunBundle, now: int)
    requires OutboxID(s.queue.next) !in s.queue.table && b.run.id !in s.runs && Entry(s, q).None?
    ensures Atomic(s, q, Granted(b.run, false), Insert(s, q.scope, q.keyHash, q.requestHash, b, now))
  {
    hide OutboxID, Remember, Lookup;
    InsertEntries(s, q, b, now);
    var s' := Insert(s, q.scope, q.keyHash, q.requestHash, b, now);
    InsertMessage(s.queue, RunTopic(b.topic), b, now);
    InsertStores(s, q, b, now);
    assert OneMessageMore(s.queue, s'.queue, b.run.id);
  }

  lemma InsertStores(s: Store, q: Request, b: RunBundle, now: int)
    ensures var s' := Insert(s, q.scope, q.keyHash, q.requestHash, b, now);
      && s'.runs == s.runs[b.run.id := b.run]
      && s'.queue == Enqueued(s.queue, RunTopic(b.topic), b.run.id, RunPayload(b), now)
  {
    hide Enqueued;
  }

  lemma InsertMessage(q: Queue, topic: Topic, b: RunBundle, now: int)
    requires OutboxID(q.next) !in q.table
    ensures OneMessageMore(q, Enqueued(q, topic, b.run.id, RunPayload(b), now), b.run.id)
  {
    hide OutboxID;
  }

  lemma InsertEntries(s: Store, q: Request, b: RunBundle, now: int)
    ensures var s' := Insert(s, q.scope, q.keyHash, q.requestHash, b, now);
      forall p :: Entry(s', p) == if SameKey(p, q) then Some(Record(q.requestHash, b.run.id)) else Entry(s, p)
  {
    hide Enqueued, Remember;
    var record := Record(q.requestHash, b.run.id);
    var s' := Insert(s, q.scope, q.keyHash, q.requestHash, b, now);
    forall p
      ensures Entry(s', p) == if SameKey(p, q) then Some(record) else Entry(s, p)
    {
      RememberEntry(s, q, record, p);
    }
  }

  lemma CreateAtomic(s: Store, q: Request, b: RunBundle, now: int)
    requires Consistent(s) && b.run.id !in s.runs
    ensures Aligned(s) && Atomic(s, q, CreateRun(s, q.scope, q.keyHash, q.requestHash, b, now).1,
                                 CreateRun(s, q.scope, q.keyHash, q.requestHash, b, now).0)
  {
    hide Consistent, Atomic, OutboxID, RunNames, Insert, Aligned, Replay;
    AlignedOf(s);
    QueueOf(s);
    ReplayMisses(s, q);
    ReplayAtomic(s, q);
    if Entry(s, q).None? {
      InsertAtomic(s, q, b, now);
    }
  }

  lemma ReplayMisses(s: Store, q: Request)
    requires Aligned(s)
    ensures Replay(s, q.scope, q.keyHash, q.requestHash) == Missing <==> Entry(s, q).None?
  {
    hide Refer;
  }

  lemma QueueOf(s: Store)
    requires Consistent(s)
    ensures OutboxID(s.queue.next) !in s.queue.table
  {
    NextName(s.queue.next);
  }

  lemma ReplayAtomic(s: Store, q: Request)
    requires Consistent(s)
    ensures Aligned(s) && (Replay(s, q.scope, q.keyHash, q.requestHash) != Missing
      ==> Atomic(s, q, Replay(s, q.scope, q.keyHash, q.requestHash), s))
  {
    hide Consistent, OutboxID, RunNames;
    AlignedOf(s);
  }

  // ----- every step -----

  predicate AnswersNow(s: Sys, s': Sys, c: nat) {
    c in s'.callers && s'.callers[c].Answered? && !(c in s.callers && s.callers[c].Answered?)
  }

  /** Each step that answers a caller is one atomic operation for the caller's request; a
      seed is one atomic operation; every other step leaves the map as it is. */
  lemma Linearizable(cfg: Config, s: Sys, a: Action, s': Sys)
    requires Good(s) && NamedWorkers(cfg) && Next(cfg, s, a, s')
    ensures forall c :: AnswersNow(s, s', c) ==>
      c in s.callers && s'.callers[c].request == s.callers[c].request
      && Atomic(s.store, s.callers[c].request, s'.callers[c].answer, s'.store)
    ensures forall c, d :: AnswersNow(s, s', c) && AnswersNow(s, s', d) ==> c == d
    ensures (forall c :: !AnswersNow(s, s', c)) && !a.Seed? ==> SameMap(s.store, s'.store)
    ensures a.Seed? ==> exists answer :: Atomic(s.store, Request(Public, a.keyHash, a.requestHash), answer, s'.store)
  {
    hide Consistent, Atomic, RunNames, CreateRun, LoadStep, ClaimStep, ConcludeStep, MarkWebhookSeen, RecordStep,
         DeliverStep, Aligned, WellFormedBundle, Heartbeat;
    AlignedOf(s.store);
    match a {
      case TryReplay(c) => ReplayAtomic(s.store, s.callers[c].request);
      case Create(c, b) =>
        assert Executions.Holds(s.callers, c, b.run.id);
        CreateAtomic(s.store, s.callers[c].request, b, s.now);
        assert AnswersNow(s, s', c);
      case Seed(n, k, h, b) => CreateAtomic(s.store, Request(Public, k, h), b, s.now);
      case Load(w) => LoadKeepsRecords(cfg, s, w, s');
      case Claim(w, claimed) => LeaseKeepsRecords(cfg, s, a, s');
      case Conclude(w) => LeaseKeepsRecords(cfg, s, a, s');
      case Ingress(r) => IngressKeepsRecords(s.store, r, s.now);
      case RecordVerdict(w) => RecordKeepsRecords(cfg, s, w, s');
      case DeliverNext(w) => DeliverKeepsRecords(cfg, s, w, s');
      case _ =>
    }
  }

  lemma ProcessKeepsRecords(s: Store, e: string, now: int)
    requires Aligned(s)
    ensures var s' := ProcessStripeWebhook(s, e, now).0;
      s'.idempotency == s.idempotency && s'.tenantIdempotency == s.tenantIdempotency
  {
    hide Classify, AddOnce, NextSequence, Refer;
  }

  lemma LoadKeepsRecords(cfg: Config, s: Sys, w: nat, s': Sys)
    requires LoadStep(cfg, s, w, s')
    ensures s'.callers == s.callers && SameMap(s.store, s'.store)
  {
    hide Prepared, ProcessStripeWebhook, Aligned, TenantKey;
    var m := s.workers[w].message;
    if m.payload.Fields? {
      ProcessKeepsRecords(s.store, m.payload.stripeEventID, s.now);
    }
  }

  lemma LeaseKeepsRecords(cfg: Config, s: Sys, a: Action, s': Sys)
    requires (a.Claim? || a.Conclude?) && Next(cfg, s, a, s')
    ensures s'.callers == s.callers && SameMap(s.store, s'.store)
  {
  }

  lemma IngressKeepsRecords(s: Store, r: WebhookReceipt, now: int)
    ensures SameMap(s, MarkWebhookSeen(s, r, now).0)
  {
  }

  lemma RecordKeepsRecords(cfg: Config, s: Sys, w: nat, s': Sys)
    requires RecordStep(cfg, s, w, s')
    ensures s'.callers == s.callers && SameMap(s.store, s'.store)
  {
  }

  lemma DeliverKeepsRecords(cfg: Config, s: Sys, w: nat, s': Sys)
    requires DeliverStep(cfg, s, w, s')
    ensures s'.callers == s.callers && SameMap(s.store, s'.store)
  {
  }

  // ----- what callers can rely on -----

  /** A granted caller has the run that the map names for its key; a refused caller used a
      key that belongs to another request. */
  predicate AnswerOK(s: Store, q: Request, answer: Creation) {
    Entry(s, q).Some? &&
    var record := Entry(s, q).value;
    match answer
    case Granted(run, _) =>
      record == Record(q.requestHash, run.id) && run.id in s.runs && Frozen(run) == Frozen(s.runs[run.id])
    case Conflict => record.requestHash != q.requestHash
    case Missing => false
  }

  predicate CallerOK(s: Store, c: Caller) {
    c.Answered? ==> AnswerOK(s, c.request, c.answer)
  }

  ghost predicate AnswersOK(s: Sys) {
    forall c :: c in s.callers ==> CallerOK(s.store, s.callers[c])
  }

  lemma EntryKept(s: Store, s': Store, q: Request)
    requires Evolves(s, s') && Entry(s, q).Some?
    ensures Entry(s', q) == Entry(s, q)
  {
  }

  lemma CallerKept(s: Store, s': Store, c: Caller)
    requires Evolves(s, s') && CallerOK(s, c)
    ensures CallerOK(s', c)
  {
    if c.Answered? {
      EntryKept(s, s', c.request);
    }
  }

  lemma AtomicAnswerOK(s: Store, q: Request, answer: Creation, s': Store)
    requires Atomic(s, q, answer, s') && RunsNamed(s.runs)
    ensures AnswerOK(s', q, answer)
  {
  }

  predicate RunsNamed(runs: Runs) {
    forall r :: r in runs ==> runs[r].id == r
  }

  lemma RunsNamedOf(s: Store)
    requires Consistent(s)
    ensures RunsNamed(s.runs)
  {
    hide KeysOK, MailOK, ProjectionsSettled, ProjectionsMatch, ProjectionsMarked, ResultsOK;
    forall r | r in s.runs
      ensures s.runs[r].id == r
    {
      assert RunOK(r, s.runs[r], s.events[r], s.reports[r]);
    }
  }

  lemma StepAnswers(cfg: Config, s: Sys, a: Action, s': Sys)
    requires Good(s) && NamedWorkers(cfg) && AnswersOK(s) && Next(cfg, s, a, s')
    ensures AnswersOK(s')
  {
    hide Consistent, Atomic, AnswerOK, Evolves, LoadStep, ClaimStep, ConcludeStep, BeatStep, CreateRun,
         MarkWebhookSeen, RecordStep;
    StepGood(cfg, s, a, s');
    Linearizable(cfg, s, a, s');
    RunsNamedOf(s.store);
    forall c | c in s'.callers
      ensures CallerOK(s'.store, s'.callers[c])
    {
      if AnswersNow(s, s', c) {
        AtomicAnswerOK(s.store, s.callers[c].request, s'.callers[c].answer, s'.store);
      } else if s'.callers[c].Answered? {
        AnswerStays(cfg, s, a, s', c);
        CallerKept(s.store, s'.store, s.callers[c]);
      }
    }
  }

  /** An answer, once given, is not taken back. */
  lemma AnswerStays(cfg: Config, s: Sys, a: Action, s': Sys, c: nat)
    requires Next(cfg, s, a, s') && c in s'.callers && c in s.callers && s.callers[c].Answered?
    ensures s'.callers[c] == s.callers[c]
  {
    hide ProcessStripeWebhook, CreateRun, MarkWebhookSeen, Claims;
  }

  lemma {:induction false} AlwaysAnswersOK(cfg: Config, states: seq<Sys>, actions: seq<Action>, i: nat)
    requires Execution(cfg, states, actions) && NamedWorkers(cfg) && i < |states|
    ensures Good(states[i]) && AnswersOK(states[i])
  {
    hide Good, Next, AnswerOK;
    Reachable(cfg, states, actions, i);
    if i > 0 {
      AlwaysAnswersOK(cfg, states, actions, i - 1);
      assert NextAt(cfg, states, actions, i - 1);
      StepAnswers(cfg, states[i - 1], actions[i - 1], states[i]);
    }
  }

  predicate AnsweredAt(states: seq<Sys>, i: nat, c: nat, q: Request, answer: Creation) {
    i < |states| && c in states[i].callers && states[i].callers[c] == Answered(q, answer)
  }

  /** Any two callers, at any two moments of an execution, with the same scope and key: both
      are granted exactly when they sent the same request, unless both are refused; all who are
      granted get the same run, equal but for the event count that may grow between; and
      callers with different keys get different runs. */
  lemma OneRunPerKey(cfg: Config, states: seq<Sys>, actions: seq<Action>,
                     i: nat, c: nat, q: Request, a: Creation, j: nat, d: nat, p: Request, b: Creation)
    requires Execution(cfg, states, actions) && NamedWorkers(cfg) && i <= j
    requires AnsweredAt(states, i, c, q, a) && AnsweredAt(states, j, d, p, b)
    ensures !a.Missing? && !b.Missing?
    ensures SameKey(q, p) && a.Granted? ==> (b.Granted? <==> p.requestHash == q.requestHash)
    ensures SameKey(q, p) && b.Granted? ==> (a.Granted? <==> p.requestHash == q.requestHash)
    ensures a.Granted? && b.Granted? ==> (a.run.id == b.run.id <==> SameKey(q, p))
    ensures a.Granted? && b.Granted? && SameKey(q, p) ==> Frozen(a.run) == Frozen(b.run)
  {
    hide Execution, Evolves, Consistent, CallersOK;
    AlwaysAnswersOK(cfg, states, actions, i);
    AlwaysAnswersOK(cfg, states, actions, j);
    HistoryGrows(cfg, states, actions, i, j);
    var s := states[j].store;
    assert CallerOK(states[i].store, states[i].callers[c]) && CallerOK(s, states[j].callers[d]);
    CallerKept(states[i].store, s, states[i].callers[c]);
    OneKeyOf(s);
    KeysNameDifferentRuns(s, q, p);
  }

  lemma OneKeyOf(s: Store)
    requires Consistent(s)
    ensures OneKeyEach(s.runs.Keys, s.idempotency, s.tenantIdempotency) && Aligned(s)
  {
    hide BooksOK, MailOK;
  }

  /** A run identifier, once allocated to a caller, is never that of another creation: no
      create overwrites a run, in no interleaving. */
  lemma CreateNeverOverwrites(cfg: Config, states: seq<Sys>, actions: seq<Action>, i: nat, c: nat, b: RunBundle)
    requires Execution(cfg, states, actions) && NamedWorkers(cfg) && i < |actions|
    requires actions[i] == Create(c, b)
    ensures b.run.id !in states[i].store.runs
    ensures forall r :: r in states[i].store.runs ==>
      r in states[i + 1].store.runs && states[i + 1].store.runs[r] == states[i].store.runs[r]
  {
    hide Consistent, RunNames;
    Reachable(cfg, states, actions, i);
    assert NextAt(cfg, states, actions, i);
    assert Executions.Holds(states[i].callers, c, b.run.id);
  }
}
