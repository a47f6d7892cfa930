/** Leases over whole executions: how often a message can be claimed, how long its retries
    wait, and why a worker that renews in time keeps its message. Worker IDs are distinct. */
module Leases {
  import opened Options
  import opened Identifiers
  import opened Domain
  import opened Outbox
  import opened StoreSpec
  import opened Jobs
  import opened Consistency
  import opened System
  import opened Executions

  ghost predicate DistinctWorkers(cfg: Config) {
    NamedWorkers(cfg) && forall v: nat, w: nat :: cfg.owner(v) == cfg.owner(w) ==> v == w
  }

  // ----- what a worker and the table agree on -----

  /** While the message is still locked by its worker, the worker knows the attempt it is
      in and the time of the last renewal. */
  predicate Current(t: Table, owner: string, b: Worker) {
    b.Busy? && b.message.id in t && t[b.message.id].message.lockedBy == owner ==>
      t[b.message.id].message.attempts == b.message.attempts && t[b.message.id].message.lockedAt == b.beatAt
  }

  ghost predicate AllCurrent(cfg: Config, t: Table, workers: map<nat, Worker>) {
    forall w :: w in workers ==> Current(t, cfg.owner(w), workers[w])
  }

  // ----- claims, retries and takeovers add up -----

  predicate Locked(item: OutboxItem) {
    item.message.lockedBy != ""
  }

  /** Every claim ends in a retry, in a takeover, or is the one that is open or has settled
      the message; and retries happened at distinct attempts below the limit. */
  predicate Tallied(item: OutboxItem, retries: set<nat>, takeovers: nat, max: nat) {
    && item.message.attempts == |retries| + takeovers + (if Locked(item) || Settled(item) then 1 else 0)
    && forall a :: a in retries ==>
         1 <= a <= item.message.attempts && a < max && (Locked(item) ==> a < item.message.attempts)
  }

  predicate TalliedAt(t: Table, log: Log, id: string, max: nat) {
    id in t ==> Tallied(t[id], Retries(log, id), Takeovers(log, id), max)
  }

  ghost predicate AllTallied(t: Table, log: Log, max: nat) {
    && (forall id :: TalliedAt(t, log, id, max))
    && log.retries.Keys <= t.Keys && log.takeovers.Keys <= t.Keys
  }

  ghost predicate Leased(cfg: Config, s: Sys) {
    AllCurrent(cfg, Items(s), s.workers) && AllTallied(Items(s), s.log, cfg.maxAttempts)
  }

  /** One entry of the table changed; and with it at most its own history. */
  ghost predicate OnlyEntry(t: Table, log: Log, t': Table, log': Log, id: string) {
    && t'.Keys == t.Keys + (if id in t' then {id} else {})
    && (forall other :: other in t && other != id ==> t'[other] == t[other])
    && (forall other :: other != id ==>
          Retries(log', other) == Retries(log, other) && Takeovers(log', other) == Takeovers(log, other))
    && log'.retries.Keys <= log.retries.Keys + {id} && log'.takeovers.Keys <= log.takeovers.Keys + {id}
  }

  lemma EntryTallied(t: Table, log: Log, t': Table, log': Log, id: string, max: nat)
    requires AllTallied(t, log, max) && OnlyEntry(t, log, t', log', id)
    requires id in t' && Tallied(t'[id], Retries(log', id), Takeovers(log', id), max)
    ensures AllTallied(t', log', max)
  {
    forall other
      ensures TalliedAt(t', log', other, max)
    {
      assert TalliedAt(t, log, other, max);
    }
  }

  /** An entry that ends up with another holder disturbs no worker but that holder. */
  lemma EntryCurrent(cfg: Config, t: Table, t': Table, workers: map<nat, Worker>, w: nat, b: Worker, id: string)
    requires DistinctWorkers(cfg) && AllCurrent(cfg, t, workers)
    requires forall other :: other in t' && other != id ==> other in t && t'[other] == t[other]
    requires id in t' && (t'[id].message.lockedBy == "" || t'[id].message.lockedBy == cfg.owner(w))
    requires Current(t', cfg.owner(w), b)
    ensures AllCurrent(cfg, t', workers[w := b])
  {
    forall v | v in workers && v != w
      ensures Current(t', cfg.owner(v), workers[v])
    {
      assert Current(t, cfg.owner(v), workers[v]);
      assert cfg.owner(v) != "" && cfg.owner(v) != cfg.owner(w);
    }
  }

  lemma SameCurrent(cfg: Config, t: Table, workers: map<nat, Worker>, w: nat, b: Worker)
    requires AllCurrent(cfg, t, workers) && Current(t, cfg.owner(w), b)
    ensures AllCurrent(cfg, t, workers[w := b])
  {
  }

  lemma SoundOf(s: Store)
    requires Consistent(s)
    ensures Sound(s.queue) && OutboxID(s.queue.next) !in s.queue.table
  {
    NextName(s.queue.next);
  }

  // ----- who touches the table -----

  predicate MovesLeases(a: Action) {
    a.Claim? || a.Beat? || a.Conclude?
  }

  predicate Added(t: Table, t': Table, id: string) {
    && id !in t && id in t' && t' == t[id := t'[id]]
    && t'[id].message.attempts == 0 && !Locked(t'[id]) && !Settled(t'[id])
  }

  /** At most a new message, which nobody has claimed yet. */
  ghost predicate OnlyAdds(t: Table, t': Table) {
    t' == t || exists id :: Added(t, t', id)
  }

  lemma CreateAdds(s: Store, q: Request, b: RunBundle, now: int)
    requires Consistent(s)
    ensures Aligned(s) && OnlyAdds(s.queue.table, CreateRun(s, q.scope, q.keyHash, q.requestHash, b, now).0.queue.table)
  {
    hide Consistent, OutboxID, Sound, Aligned;
    AlignedOf(s);
    SoundOf(s);
    var t' := CreateRun(s, q.scope, q.keyHash, q.requestHash, b, now).0.queue.table;
    if t' != s.queue.table {
      assert Added(s.queue.table, t', OutboxID(s.queue.next));
    }
  }

  lemma IngressAdds(s: Store, r: WebhookReceipt, now: int)
    requires Consistent(s)
    ensures OnlyAdds(s.queue.table, MarkWebhookSeen(s, r, now).0.queue.table)
  {
    hide Consistent, OutboxID, Sound;
    SoundOf(s);
    var t' := MarkWebhookSeen(s, r, now).0.queue.table;
    if t' != s.queue.table {
      assert Added(s.queue.table, t', OutboxID(s.queue.next));
    }
  }

  lemma LoadKeepsItems(cfg: Config, s: Sys, w: nat, s': Sys)
    requires LoadStep(cfg, s, w, s')
    ensures Items(s') == Items(s) && s'.log == s.log && IsBusy(s, w) && s'.workers == AtPhase(s, w, s'.workers[w].phase)
  {
  }

  predicate SameHold(s: Sys, w: nat, b: Worker) {
    b.Busy? ==> IsBusy(s, w) && b.message == s.workers[w].message && b.beatAt == s.workers[w].beatAt
  }

  /** Only claims, renewals and conclusions move leases. Every other step adds at most a
      message, and lets a worker keep what it holds, or drop it. */
  lemma OthersMoveNoLease(cfg: Config, s: Sys, a: Action, s': Sys)
    requires Consistent(s.store) && Next(cfg, s, a, s') && !MovesLeases(a)
    ensures OnlyAdds(Items(s), Items(s')) && s'.log == s.log
    ensures forall w :: w in s'.workers ==> SameHold(s, w, s'.workers[w])
  {
    hide Consistent, OnlyAdds, CreateRun, LoadStep, MarkWebhookSeen;
    NothingAdded(Items(s));
    match a {
      case Load(w) => LoadKeepsItems(cfg, s, w, s');
      case Ingress(r) => IngressAdds(s.store, r, s.now);
      case Create(c, b) =>
        var q := s.callers[c].request;
        CreateAdds(s.store, q, b, s.now);
      case Seed(n, k, h, b) => CreateAdds(s.store, Request(Public, k, h), b, s.now);
      case _ =>
    }
  }

  lemma NothingAdded(t: Table)
    ensures OnlyAdds(t, t)
  {
  }

  // ----- each step -----

  lemma ClaimLeased(cfg: Config, s: Sys, w: nat, m: OutboxMessage, s': Sys)
    requires DistinctWorkers(cfg) && Leased(cfg, s) && Keyed(Items(s)) && ClaimStep(cfg, s, w, Some(m), s')
    ensures Leased(cfg, s')
  {
    var t, t', id := Items(s), Items(s'), m.id;
    assert TalliedAt(t, s.log, id, cfg.maxAttempts);
    assert t'.Keys == t.Keys;
    EntryTallied(t, s.log, t', s'.log, id, cfg.maxAttempts);
    EntryCurrent(cfg, t, t', s.workers, w, s'.workers[w], id);
  }

  lemma BeatLeased(cfg: Config, s: Sys, w: nat, failed: bool, s': Sys)
    requires DistinctWorkers(cfg) && Leased(cfg, s) && BeatStep(cfg, s, w, failed, s')
    ensures Leased(cfg, s')
  {
    var t, t', id := Items(s), Items(s'), s.workers[w].message.id;
    assert Current(t, cfg.owner(w), s.workers[w]);
    if t' == t && s'.workers[w].beatAt == s.workers[w].beatAt {
      SameCurrent(cfg, t, s.workers, w, s'.workers[w]);
    } else {
      assert TalliedAt(t, s.log, id, cfg.maxAttempts);
      assert t'.Keys == t.Keys;
      EntryTallied(t, s.log, t', s'.log, id, cfg.maxAttempts);
      EntryCurrent(cfg, t, t', s.workers, w, s'.workers[w], id);
    }
  }

  /** The holder sends a message back: its attempt joins the retries. */
  lemma RetryTallied(item: OutboxItem, item': OutboxItem, retries: set<nat>, takeovers: nat, max: nat)
    requires Tallied(item, retries, takeovers, max) && Locked(item) && !Settled(item)
    requires item'.message.attempts == item.message.attempts < max && !Locked(item') && !Settled(item')
    ensures Tallied(item', retries + {item.message.attempts}, takeovers, max)
  {
    assert item.message.attempts !in retries;
  }

  lemma ConcludeLeased(cfg: Config, s: Sys, w: nat, s': Sys)
    requires DistinctWorkers(cfg) && Leased(cfg, s) && Sound(s.store.queue) && ConcludeStep(cfg, s, w, s')
    ensures Leased(cfg, s')
  {
    hide Names, RetryDelay, Keyed;
    var t, t', b := Items(s), Items(s'), s.workers[w];
    var id := b.message.id;
    assert Current(t, cfg.owner(w), b);
    if !Outbox.Holds(t, id, cfg.owner(w)) {
      assert t' == t && s'.log == s.log;
      SameCurrent(cfg, t, s.workers, w, Idle);
    } else {
      assert TalliedAt(t, s.log, id, cfg.maxAttempts);
      assert Proper(t[id]) && Locked(t[id]);
      assert t'.Keys == t.Keys;
      if FinalOutcome(b) == Transient && b.message.attempts < cfg.maxAttempts {
        RetryTallied(t[id], t'[id], Retries(s.log, id), Takeovers(s.log, id), cfg.maxAttempts);
      }
      EntryTallied(t, s.log, t', s'.log, id, cfg.maxAttempts);
      EntryCurrent(cfg, t, t', s.workers, w, Idle, id);
    }
  }

  lemma AddedCurrent(cfg: Config, t: Table, t': Table, workers: map<nat, Worker>, w: nat, b: Worker)
    requires DistinctWorkers(cfg) && OnlyAdds(t, t') && AllCurrent(cfg, t, workers)
    requires b.Busy? ==> w in workers && workers[w].Busy? && b.message == workers[w].message && b.beatAt == workers[w].beatAt
    ensures Current(t', cfg.owner(w), b)
  {
    if b.Busy? {
      assert Current(t, cfg.owner(w), workers[w]);
      assert cfg.owner(w) != "";
    }
  }

  lemma AddedTallied(t: Table, t': Table, log: Log, max: nat)
    requires OnlyAdds(t, t') && AllTallied(t, log, max)
    ensures AllTallied(t', log, max)
  {
    if t' != t {
      var id :| Added(t, t', id);
      EntryTallied(t, log, t', log, id, max);
    }
  }

  lemma OtherLeased(cfg: Config, s: Sys, a: Action, s': Sys)
    requires DistinctWorkers(cfg) && Leased(cfg, s) && Consistent(s.store) && Next(cfg, s, a, s') && !MovesLeases(a)
    ensures Leased(cfg, s')
  {
    hide Consistent, DistinctWorkers, OnlyAdds, AllTallied, Next, Current;
    OthersMoveNoLease(cfg, s, a, s');
    AddedTallied(Items(s), Items(s'), s.log, cfg.maxAttempts);
    forall w | w in s'.workers
      ensures Current(Items(s'), cfg.owner(w), s'.workers[w])
    {
      AddedCurrent(cfg, Items(s), Items(s'), s.workers, w, s'.workers[w]);
    }
  }

  lemma StepLeased(cfg: Config, s: Sys, a: Action, s': Sys)
    requires DistinctWorkers(cfg) && Good(s) && Leased(cfg, s) && Next(cfg, s, a, s')
    ensures Leased(cfg, s')
  {
    hide Consistent, DistinctWorkers, Leased, Sound, ConcludeStep, BeatStep, CreateStep, SeedStep, LoadStep,
         DeliverStep, RecordStep;
    SoundOf(s.store);
    match a {
      case Claim(w, claimed) =>
        if claimed.Some? { KeyedOf(s.store); ClaimLeased(cfg, s, w, claimed.value, s'); } else { assert Items(s') == Items(s); }
      case Beat(w, failed) => BeatLeased(cfg, s, w, failed, s');
      case Conclude(w) => ConcludeLeased(cfg, s, w, s');
      case _ => OtherLeased(cfg, s, a, s');
    }
  }

  lemma {:induction false} AlwaysLeased(cfg: Config, states: seq<Sys>, actions: seq<Action>, i: nat)
    requires Execution(cfg, states, actions) && DistinctWorkers(cfg) && i < |states|
    ensures Good(states[i]) && Leased(cfg, states[i])
  {
    hide Good, Next;
    Reachable(cfg, states, actions, i);
    if i > 0 {
      AlwaysLeased(cfg, states, actions, i - 1);
      assert NextAt(cfg, states, actions, i - 1);
      StepLeased(cfg, states[i - 1], actions[i - 1], states[i]);
    }
  }

  // ----- bounded work -----

  /** How often the first i actions claimed a message. */
  function ClaimCount(actions: seq<Action>, i: nat, id: string): nat
    requires i <= |actions|
  {
    if i == 0 then 0
    else
      var a := actions[i - 1];
      ClaimCount(actions, i - 1, id) + if a.Claim? && a.claimed.Some? && a.claimed.value.id == id then 1 else 0
  }

  function Attempts(t: Table, id: string): nat {
    if id in t then t[id].message.attempts else 0
  }

  lemma StepAttempts(cfg: Config, s: Sys, a: Action, s': Sys, id: string)
    requires Consistent(s.store) && Next(cfg, s, a, s')
    ensures Attempts(Items(s'), id)
         == Attempts(Items(s), id) + if a.Claim? && a.claimed.Some? && a.claimed.value.id == id then 1 else 0
  {
    if MovesLeases(a) {
      hide Consistent;
    } else {
      hide Next, Consistent;
      OthersMoveNoLease(cfg, s, a, s');
    }
  }

  /** The attempt counter of a message is the number of times it was claimed. */
  lemma {:induction false} AttemptsCountClaims(cfg: Config, states: seq<Sys>, actions: seq<Action>, i: nat, id: string)
    requires Execution(cfg, states, actions) && NamedWorkers(cfg) && i < |states|
    ensures Attempts(Items(states[i]), id) == ClaimCount(actions, i, id)
  {
    hide Good, Next;
    if i > 0 {
      AttemptsCountClaims(cfg, states, actions, i - 1, id);
      ReachableConsistent(cfg, states, actions, i - 1);
      assert NextAt(cfg, states, actions, i - 1);
      StepAttempts(cfg, states[i - 1], actions[i - 1], states[i], id);
    }
  }

  lemma ReachableConsistent(cfg: Config, states: seq<Sys>, actions: seq<Action>, i: nat)
    requires Execution(cfg, states, actions) && NamedWorkers(cfg) && i < |states|
    ensures Consistent(states[i].store)
  {
    hide Execution, Consistent, CallersOK;
    Reachable(cfg, states, actions, i);
  }

  lemma {:induction false} BelowLimit(attempts: set<nat>, n: nat)
    requires forall a :: a in attempts ==> 1 <= a <= n
    ensures |attempts| <= n
  {
    if n == 0 {
      assert attempts == {};
    } else if n in attempts {
      BelowLimit(attempts - {n}, n - 1);
    } else {
      BelowLimit(attempts, n - 1);
    }
  }

  /** A step takes over the expired lease of a message. */
  predicate TakesOver(s: Sys, a: Action, id: string) {
    a.Claim? && a.claimed.Some? && a.claimed.value.id == id && id in Items(s) && Locked(Items(s)[id])
  }

  /** A step sends a message back: it was locked, and now waits unlocked and unsettled. */
  predicate SendsBack(s: Sys, s': Sys, id: string) {
    && id in Items(s) && Locked(Items(s)[id])
    && id in Items(s') && !Locked(Items(s')[id]) && !Settled(Items(s')[id])
  }

  function TakeoverCount(states: seq<Sys>, actions: seq<Action>, i: nat, id: string): nat
    requires i <= |actions| && |states| == |actions| + 1
  {
    if i == 0 then 0
    else TakeoverCount(states, actions, i - 1, id) + if TakesOver(states[i - 1], actions[i - 1], id) then 1 else 0
  }

  function RetryCount(states: seq<Sys>, i: nat, id: string): nat
    requires i < |states|
  {
    if i == 0 then 0 else RetryCount(states, i - 1, id) + if SendsBack(states[i - 1], states[i], id) then 1 else 0
  }

  /** How long the message was told to wait, summed over the steps that sent it back. */
  function RetryWait(states: seq<Sys>, i: nat, id: string): int
    requires i < |states|
  {
    if i == 0 then 0
    else
      RetryWait(states, i - 1, id)
      + if SendsBack(states[i - 1], states[i], id) then Items(states[i])[id].availableAt - states[i - 1].now else 0
  }

  /** What one step does to the history of a message. */
  predicate Recounts(s: Sys, a: Action, s': Sys, id: string, max: nat) {
    && Takeovers(s'.log, id) == Takeovers(s.log, id) + (if TakesOver(s, a, id) then 1 else 0)
    && if SendsBack(s, s', id) then
         var attempt := Items(s)[id].message.attempts;
         && attempt !in Retries(s.log, id) && Retries(s'.log, id) == Retries(s.log, id) + {attempt}
         && (forall b :: b in Retries(s.log, id) ==> b < attempt) && 1 <= attempt < max
         && Items(s')[id].availableAt - s.now == RetryDelay(attempt)
       else Retries(s'.log, id) == Retries(s.log, id)
  }

  lemma ConcludeRecounts(cfg: Config, s: Sys, w: nat, s': Sys, id: string)
    requires DistinctWorkers(cfg) && Leased(cfg, s) && Sound(s.store.queue) && ConcludeStep(cfg, s, w, s')
    ensures Recounts(s, Conclude(w), s', id, cfg.maxAttempts)
  {
    hide Names, RetryDelay, Keyed;
    var b := s.workers[w];
    assert Current(Items(s), cfg.owner(w), b);
    assert TalliedAt(Items(s), s.log, id, cfg.maxAttempts);
    if id in Items(s) { assert Proper(Items(s)[id]); }
  }

  lemma OtherRecounts(cfg: Config, s: Sys, a: Action, s': Sys, id: string)
    requires Consistent(s.store) && Next(cfg, s, a, s') && !MovesLeases(a)
    ensures Recounts(s, a, s', id, cfg.maxAttempts)
  {
    hide Next, Consistent, RetryDelay;
    OthersMoveNoLease(cfg, s, a, s');
  }

  lemma StepRecounts(cfg: Config, s: Sys, a: Action, s': Sys, id: string)
    requires DistinctWorkers(cfg) && Good(s) && Leased(cfg, s) && Next(cfg, s, a, s')
    ensures Recounts(s, a, s', id, cfg.maxAttempts)
  {
    hide Consistent, DistinctWorkers, Leased, Sound, ConcludeStep, RetryDelay;
    SoundOf(s.store);
    NamedOf(cfg);
    if a.Conclude? {
      ConcludeRecounts(cfg, s, a.w, s', id);
    } else if !MovesLeases(a) {
      OtherRecounts(cfg, s, a, s', id);
    }
  }

  /** The logged history is the history of the actions. */
  lemma {:induction false} LogIsHistory(cfg: Config, states: seq<Sys>, actions: seq<Action>, i: nat, id: string)
    requires Execution(cfg, states, actions) && DistinctWorkers(cfg) && i < |states|
    ensures var log := states[i].log;
      && Takeovers(log, id) == TakeoverCount(states, actions, i, id)
      && |Retries(log, id)| == RetryCount(states, i, id)
      && DelaySum(Retries(log, id)) == RetryWait(states, i, id)
  {
    hide Good, Leased, Next, DistinctWorkers, RetryDelay, TakesOver, SendsBack;
    if i > 0 {
      LogIsHistory(cfg, states, actions, i - 1, id);
      AlwaysLeased(cfg, states, actions, i - 1);
      assert NextAt(cfg, states, actions, i - 1);
      var s := states[i - 1];
      StepRecounts(cfg, s, actions[i - 1], states[i], id);
      if SendsBack(s, states[i], id) {
        var attempt := AttemptAt(s, states[i], id);
        var retries := Retries(states[i].log, id);
        DelaySumSplit(retries, attempt);
        assert retries - {attempt} == Retries(s.log, id);
      }
    }
  }

  function AttemptAt(s: Sys, s': Sys, id: string): nat
    requires SendsBack(s, s', id)
  {
    Items(s)[id].message.attempts
  }

  /** An attempt at which a message was sent back stays in its history. */
  lemma {:induction false} SentBackIsLogged(cfg: Config, states: seq<Sys>, actions: seq<Action>, j: nat, k: nat, id: string)
    requires Execution(cfg, states, actions) && DistinctWorkers(cfg) && j < k < |states|
    requires SendsBack(states[j], states[j + 1], id)
    ensures AttemptAt(states[j], states[j + 1], id) in Retries(states[k].log, id)
  {
    hide Good, Leased, Next, DistinctWorkers, RetryDelay, SendsBack, TakesOver;
    AlwaysLeased(cfg, states, actions, k - 1);
    assert NextAt(cfg, states, actions, k - 1);
    StepRecounts(cfg, states[k - 1], actions[k - 1], states[k], id);
    if j + 1 < k {
      SentBackIsLogged(cfg, states, actions, j, k - 1, id);
    }
  }

  /** Of two steps that send a message back, the later one does so at a later attempt; every
      one at an attempt below the limit, and with the delay of that attempt. */
  lemma RetriesAdvance(cfg: Config, states: seq<Sys>, actions: seq<Action>, j: nat, k: nat, id: string)
    requires Execution(cfg, states, actions) && DistinctWorkers(cfg) && j <= k < |actions|
    requires SendsBack(states[j], states[j + 1], id) && SendsBack(states[k], states[k + 1], id)
    ensures var attempt := AttemptAt(states[k], states[k + 1], id);
      && 1 <= attempt < cfg.maxAttempts
      && Items(states[k + 1])[id].availableAt == states[k].now + RetryDelay(attempt)
      && (j < k ==> AttemptAt(states[j], states[j + 1], id) < attempt)
  {
    hide Good, Leased, Next, DistinctWorkers, RetryDelay, TakesOver;
    AlwaysLeased(cfg, states, actions, k);
    assert NextAt(cfg, states, actions, k);
    StepRecounts(cfg, states[k], actions[k], states[k + 1], id);
    if j < k {
      SentBackIsLogged(cfg, states, actions, j, k, id);
    }
  }

  /** Claims are accounted for: each ended in a retry, in a takeover, or is the one that is
      still open or has settled the message. */
  lemma ClaimsAddUp(cfg: Config, states: seq<Sys>, actions: seq<Action>, i: nat, id: string)
    requires Execution(cfg, states, actions) && DistinctWorkers(cfg) && i < |states| && id in Items(states[i])
    ensures var item := Items(states[i])[id];
      ClaimCount(actions, i, id) == RetryCount(states, i, id) + TakeoverCount(states, actions, i, id)
                                    + if Locked(item) || Settled(item) then 1 else 0
  {
    hide Execution, Good, AllCurrent;
    AlwaysLeased(cfg, states, actions, i);
    NamedOf(cfg);
    AttemptsCountClaims(cfg, states, actions, i, id);
    LogIsHistory(cfg, states, actions, i, id);
    assert TalliedAt(Items(states[i]), states[i].log, id, cfg.maxAttempts);
  }

  /** Bounded work, over the steps that happened: in every state of every execution a message
      has been claimed at most maxAttempts times plus once per takeover of an expired lease;
      it was sent back less than maxAttempts times, at ever later attempts; and the waits it
      was sent back with add up to no more than 2^min(max-1, 6) - 1 + 32 * max(0, max-7) seconds. */
  lemma BoundedWork(cfg: Config, states: seq<Sys>, actions: seq<Action>, i: nat, id: string)
    requires Execution(cfg, states, actions) && DistinctWorkers(cfg) && cfg.maxAttempts >= 1
    requires i < |states| && id in Items(states[i])
    ensures var max := cfg.maxAttempts;
      && ClaimCount(actions, i, id) <= max + TakeoverCount(states, actions, i, id)
      && RetryCount(states, i, id) < max
      && RetryWait(states, i, id)
         <= ((Pow2(if max - 1 < 6 then max - 1 else 6) - 1) + 32 * (if max < 7 then 0 else max - 7)) * SECOND
    ensures Advancing(states, i, id)
  {
    hide Execution, Good, AllCurrent, Pow2, DistinctWorkers, Advancing;
    RetriesAdvancing(cfg, states, actions, i, id);
    AlwaysLeased(cfg, states, actions, i);
    ClaimsAddUp(cfg, states, actions, i, id);
    LogIsHistory(cfg, states, actions, i, id);
    var s, n := states[i], cfg.maxAttempts - 1;
    assert TalliedAt(Items(s), s.log, id, cfg.maxAttempts);
    BelowLimit(Retries(s.log, id), n);
    DelaySumBound(Retries(s.log, id), n);
    TotalDelayClosed(n);
  }

  /** Step k sends the message back, at this attempt. */
  predicate SentBackAt(states: seq<Sys>, k: nat, id: string, attempt: nat) {
    k + 1 < |states| && SendsBack(states[k], states[k + 1], id) && attempt == AttemptAt(states[k], states[k + 1], id)
  }

  /** Before state i the message was sent back at ever later attempts. */
  ghost predicate Advancing(states: seq<Sys>, i: nat, id: string) {
    forall j: nat, k: nat, a: nat, b: nat ::
      (j < k < i && SentBackAt(states, j, id, a) && SentBackAt(states, k, id, b)) ==> a < b
  }

  lemma RetriesAdvancing(cfg: Config, states: seq<Sys>, actions: seq<Action>, i: nat, id: string)
    requires Execution(cfg, states, actions) && DistinctWorkers(cfg) && i < |states|
    ensures Advancing(states, i, id)
  {
    hide Next, DistinctWorkers, SendsBack;
    forall j: nat, k: nat, a: nat, b: nat | j < k < i && SentBackAt(states, j, id, a) && SentBackAt(states, k, id, b)
      ensures a < b
    {
      RetriesAdvance(cfg, states, actions, j, k, id);
    }
  }

  lemma NamedOf(cfg: Config)
    requires DistinctWorkers(cfg)
    ensures NamedWorkers(cfg)
  {
  }

  // ----- timely renewal -----

  predicate HasLease(cfg: Config, s: Sys, w: nat) {
    IsBusy(s, w) && Outbox.Holds(Items(s), s.workers[w].message.id, cfg.owner(w))
  }

  /** The last renewal is at most one heartbeat interval ago, plus what renewals may be late. */
  predicate Timely(cfg: Config, s: Sys, w: nat, late: int) {
    IsBusy(s, w) && s.now <= s.workers[w].beatAt + HeartbeatInterval(cfg.lease) + late
  }

  /** Renewal every interval beats expiry exactly for leases from ten milliseconds on. */
  lemma IntervalBeatsExpiry(item: OutboxItem, lease: int)
    requires Locked(item)
    ensures !Expired(item, lease, item.message.lockedAt + HeartbeatInterval(lease)) <==> lease >= TEN_MILLISECONDS
  {
    IntervalFits(lease);
  }

  ghost predicate ClaimsMessage(a: Action, id: string) {
    a.Claim? && a.claimed.Some? && a.claimed.value.id == id
  }

  lemma ClaimTakes(cfg: Config, s: Sys, v: nat, m: OutboxMessage, s': Sys, w: nat, late: int)
    requires Leased(cfg, s) && HasLease(cfg, s, w) && Timely(cfg, s, w, late) && NamedWorkers(cfg)
    requires HeartbeatInterval(cfg.lease) + late <= cfg.lease
    requires ClaimStep(cfg, s, v, Some(m), s')
    ensures m.id != s.workers[w].message.id
  {
    hide AllTallied;
    assert Current(Items(s), cfg.owner(w), s.workers[w]);
  }

  lemma AddedHolds(t: Table, t': Table, id: string, owner: string)
    requires OnlyAdds(t, t') && Outbox.Holds(t, id, owner)
    ensures Outbox.Holds(t', id, owner)
  {
  }

  lemma MoveKeepsLease(cfg: Config, s: Sys, a: Action, s': Sys, w: nat, late: int)
    requires DistinctWorkers(cfg) && Leased(cfg, s) && Next(cfg, s, a, s') && MovesLeases(a)
    requires HasLease(cfg, s, w) && Timely(cfg, s, w, late) && HeartbeatInterval(cfg.lease) + late <= cfg.lease
    requires IsBusy(s', w) && s'.workers[w].message == s.workers[w].message
    ensures HasLease(cfg, s', w) && !ClaimsMessage(a, s.workers[w].message.id)
  {
    hide Leased, HeartbeatInterval, RetryDelay;
    NamedOf(cfg);
    match a {
      case Claim(v, claimed) => if claimed.Some? { ClaimTakes(cfg, s, v, claimed.value, s', w, late); }
      case Beat(v, failed) =>
      case Conclude(v) => assert v != w && cfg.owner(v) != cfg.owner(w);
    }
  }

  /** One step: while the worker keeps at its message and renews in time, nobody else
      claims the message, and the worker still has its lease. */
  lemma TimelyStep(cfg: Config, s: Sys, a: Action, s': Sys, w: nat, late: int)
    requires DistinctWorkers(cfg) && Good(s) && Leased(cfg, s) && Next(cfg, s, a, s')
    requires HasLease(cfg, s, w) && Timely(cfg, s, w, late) && HeartbeatInterval(cfg.lease) + late <= cfg.lease
    requires IsBusy(s', w) && s'.workers[w].message == s.workers[w].message
    ensures HasLease(cfg, s', w) && !ClaimsMessage(a, s.workers[w].message.id)
  {
    hide Leased, Consistent, HeartbeatInterval, Next, OnlyAdds, DistinctWorkers;
    if MovesLeases(a) {
      MoveKeepsLease(cfg, s, a, s', w, late);
    } else {
      OthersMoveNoLease(cfg, s, a, s');
      AddedHolds(Items(s), Items(s'), s.workers[w].message.id, cfg.owner(w));
    }
  }

  /** The worker is busy with one message from state i to state k, and always timely. */
  ghost predicate TimelyThroughout(cfg: Config, states: seq<Sys>, i: nat, k: nat, w: nat, late: int)
    requires i <= k < |states|
  {
    && IsBusy(states[i], w)
    && forall j :: i <= j <= k ==> Timely(cfg, states[j], w, late) && states[j].workers[w].message == states[i].workers[w].message
  }

  /** No timely worker loses its lease: as long as every heartbeat lands within its interval
      plus a delay that the lease has room for, the worker keeps the message locked and no
      action of anyone claims it. */
  lemma {:induction false} NoTimelyWorkerLosesItsLease(
    cfg: Config, states: seq<Sys>, actions: seq<Action>, i: nat, k: nat, w: nat, late: int)
    requires Execution(cfg, states, actions) && DistinctWorkers(cfg)
    requires i <= k < |states| && TimelyThroughout(cfg, states, i, k, w, late)
    requires HeartbeatInterval(cfg.lease) + late <= cfg.lease
    requires HasLease(cfg, states[i], w)
    ensures HasLease(cfg, states[k], w)
    ensures forall j :: i <= j < k ==> !ClaimsMessage(actions[j], states[i].workers[w].message.id)
  {
    hide Good, Leased, Next, DistinctWorkers;
    if i < k {
      NoTimelyWorkerLosesItsLease(cfg, states, actions, i, k - 1, w, late);
      AlwaysLeased(cfg, states, actions, k - 1);
      assert NextAt(cfg, states, actions, k - 1);
      assert Timely(cfg, states[k - 1], w, late) && Timely(cfg, states[k], w, late);
      TimelyStep(cfg, states[k - 1], actions[k - 1], states[k], w, late);
    }
  }

  /** A worker has its lease when it has just claimed. */
  lemma ClaimGivesLease(cfg: Config, s: Sys, w: nat, m: OutboxMessage, s': Sys)
    requires Keyed(Items(s)) && ClaimStep(cfg, s, w, Some(m), s')
    ensures HasLease(cfg, s', w) && Timely(cfg, s', w, 0)
  {
  }
}
