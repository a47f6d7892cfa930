/** The worker code refines the transition system: what RunOnce does to the repository is a
    path of System steps, so everything proved of executions holds of it. And left
    undisturbed, it publishes its message. */
module Refinement {
  import opened Options
  import opened Hex
  import opened Domain
  import opened Outbox
  import opened StoreSpec
  import opened Verification
  import opened Jobs
  import opened Consistency
  import opened System
  import opened Workers
  import Executions
  import Safety

  // ----- paths -----

  ghost predicate Reaches(cfg: Config, s: Sys, t: Sys, n: nat)
    decreases n
  {
    if n == 0 then t == s else exists a, x :: Next(cfg, s, a, x) && Reaches(cfg, x, t, n - 1)
  }

  lemma OneStep(cfg: Config, s: Sys, a: Action, t: Sys)
    requires Next(cfg, s, a, t)
    ensures Reaches(cfg, s, t, 1)
  {
    hide Next;
    assert Reaches(cfg, t, t, 0);
  }

  lemma {:induction false} ThenReaches(cfg: Config, s: Sys, x: Sys, t: Sys, m: nat, n: nat)
    requires Reaches(cfg, s, x, m) && Reaches(cfg, x, t, n)
    ensures Reaches(cfg, s, t, m + n)
    decreases m
  {
    hide Next;
    if m > 0 {
      var a, y :| Next(cfg, s, a, y) && Reaches(cfg, y, x, m - 1);
      ThenReaches(cfg, y, x, t, m - 1, n);
    }
  }

  /** One step more at the end of a path. */
  lemma ThenStep(cfg: Config, s: Sys, x: Sys, m: nat, a: Action, t: Sys)
    requires Reaches(cfg, s, x, m) && Next(cfg, x, a, t)
    ensures Reaches(cfg, s, t, m + 1)
  {
    hide Next;
    OneStep(cfg, x, a, t);
    ThenReaches(cfg, s, x, t, m, 1);
  }

  // ----- the phases of a run -----

  /** The system with another store, another state of worker w, and another time. */
  function With(s: Sys, store: Store, w: nat, b: System.Worker, now: int): Sys {
    s.(store := store, workers := s.workers[w := b], now := now)
  }

  lemma WithIsLast(s: Sys, store: Store, w: nat, b: System.Worker, now: int, store': Store, b': System.Worker, now': int)
    ensures With(With(s, store, w, b, now), store', w, b', now') == With(s, store', w, b', now')
  {
    SameWorkers(s.workers, w, b, b');
  }

  lemma Stay(cfg: Config, s: Sys)
    ensures Reaches(cfg, s, s, 0)
  {
  }

  lemma {:induction false} RenewedAlive(t: Table, id: string, owner: string, beats: seq<int>)
    requires Alive(t, id, owner)
    ensures Alive(Renewed(t, id, owner, beats), id, owner)
    decreases |beats|
  {
    if beats != [] {
      RenewedAlive(t, id, owner, beats[..|beats| - 1]);
    }
  }

  lemma Wait(cfg: Config, s: Sys, w: nat, until: int)
    requires IsBusy(s, w) && s.now <= until
    ensures Reaches(cfg, s, With(s, s.store, w, s.workers[w], until), 1)
  {
    assert s.workers[w := s.workers[w]] == s.workers;
    OneStep(cfg, s, Tick(until - s.now), With(s, s.store, w, s.workers[w], until));
  }

  predicate InOrder(from: int, times: seq<int>, to: int) {
    if times == [] then from <= to else times[|times| - 1] <= to && InOrder(from, times[..|times| - 1], times[|times| - 1])
  }

  function LastOf(now: int, times: seq<int>): int {
    if times == [] then now else times[|times| - 1]
  }

  /** Renewals, each preceded by a wait. */
  lemma {:induction false} BeatsPath(cfg: Config, s: Sys, w: nat, beats: seq<int>, to: int) returns (n: nat)
    requires IsBusy(s, w) && !s.workers[w].lost && InOrder(s.now, beats, to)
    requires Alive(Items(s), s.workers[w].message.id, cfg.owner(w))
    ensures var b := s.workers[w];
      Reaches(cfg, s, With(s, WithTable(s.store, Renewed(Items(s), b.message.id, cfg.owner(w), beats)), w,
                           b.(beatAt := if beats == [] then b.beatAt else LastOf(s.now, beats)), LastOf(s.now, beats)), n)
    decreases |beats|
  {
    hide Next, Reaches, Alive, Heartbeat;
    var b, id, owner := s.workers[w], s.workers[w].message.id, cfg.owner(w);
    if beats == [] {
      assert s.workers[w := b] == s.workers;
      assert WithTable(s.store, Items(s)) == s.store;
      Stay(cfg, s);
      n := 0;
    } else {
      var early, at := beats[..|beats| - 1], beats[|beats| - 1];
      var m := BeatsPath(cfg, s, w, early, at);
      var t := Renewed(Items(s), id, owner, early);
      var last := LastOf(s.now, early);
      var x := With(s, WithTable(s.store, t), w, b.(beatAt := if early == [] then b.beatAt else last), last);
      LastInOrder(s.now, early, at);
      Wait(cfg, x, w, at);
      var y := With(x, x.store, w, x.workers[w], at);
      ThenReaches(cfg, s, x, y, m, 1);
      var z := With(s, WithTable(s.store, Renewed(Items(s), id, owner, beats)), w, b.(beatAt := at), at);
      RenewedAlive(Items(s), id, owner, early);
      BeatFrom(cfg, s, w, y, z, t, at);
      ThenStep(cfg, s, y, m + 1, Beat(w, false), z);
      n := m + 2;
    }
  }

  lemma LastInOrder(from: int, times: seq<int>, to: int)
    requires InOrder(from, times, to)
    ensures LastOf(from, times) <= to
  {
  }

  lemma BeatFrom(cfg: Config, s: Sys, w: nat, y: Sys, z: Sys, t: Table, at: int)
    requires IsBusy(s, w) && IsBusy(y, w) && y.workers[w] == s.workers[w].(beatAt := y.workers[w].beatAt) && !s.workers[w].lost
    requires y == With(s, WithTable(s.store, t), w, y.workers[w], at) && Alive(t, s.workers[w].message.id, cfg.owner(w))
    requires z == With(s, WithTable(s.store, Heartbeat(t, s.workers[w].message.id, cfg.owner(w), at).0),
                       w, s.workers[w].(beatAt := at), at)
    ensures Next(cfg, y, Beat(w, false), z)
  {
    assert y.workers[w := z.workers[w]] == z.workers;
  }

  /** The deliveries of a queue's beginning, one by one. */
  lemma {:induction false} DeliverPath(cfg: Config, s: Sys, w: nat, k: nat)
    requires IsBusy(s, w) && s.workers[w].phase.Delivering? && k <= |s.workers[w].phase.queue|
    ensures var p := s.workers[w].phase;
      var (effects, tally) := DeliverAll(s.store.merchantEffects, cfg.signer, p.queue[..k], p.tally);
      Reaches(cfg, s, With(s, s.store.(merchantEffects := effects), w,
                           s.workers[w].(phase := p.(queue := p.queue[k..], tally := tally)), s.now), k)
    decreases k
  {
    hide Next, Deliver;
    var b := s.workers[w];
    var p := b.phase;
    if k == 0 {
      assert p.queue[..0] == [] && p.queue[0..] == p.queue;
      assert s.workers[w := b] == s.workers;
    } else {
      var (effects, receipt) := Deliver(s.store.merchantEffects, cfg.signer, p.queue[0]);
      var b1 := b.(phase := p.(queue := p.queue[1..], tally := Tally(p.tally, receipt)));
      var x := With(s, s.store.(merchantEffects := effects), w, b1, s.now);
      DeliverFrom(cfg, s, w, x);
      OneStep(cfg, s, DeliverNext(w), x);
      DeliverPath(cfg, x, w, k - 1);
      assert p.queue[..k][1..] == p.queue[1..][..k - 1] && p.queue[..k][0] == p.queue[0];
      assert p.queue[1..][k - 1..] == p.queue[k..];
      var (effects', tally) := DeliverAll(s.store.merchantEffects, cfg.signer, p.queue[..k], p.tally);
      var b2 := b.(phase := p.(queue := p.queue[k..], tally := tally));
      WithIsLast(s, x.store, w, b1, s.now, s.store.(merchantEffects := effects'), b2, s.now);
      ThenReaches(cfg, s, x, With(s, s.store.(merchantEffects := effects'), w, b2, s.now), 1, k - 1);
    }
  }

  lemma DeliverFrom(cfg: Config, s: Sys, w: nat, x: Sys)
    requires IsBusy(s, w) && s.workers[w].phase.Delivering? && s.workers[w].phase.queue != []
    requires var b := s.workers[w];
      var (effects, receipt) := Deliver(s.store.merchantEffects, cfg.signer, b.phase.queue[0]);
      x == With(s, s.store.(merchantEffects := effects), w,
                b.(phase := b.phase.(queue := b.phase.queue[1..], tally := Tally(b.phase.tally, receipt))), s.now)
    ensures Next(cfg, s, DeliverNext(w), x)
  {
    hide Deliver;
  }

  predicate IsVerification(topic: Topic) {
    topic == RunPersisted || topic == VerificationQueued
  }

  /** A verification job from loading to its outcome. */
  lemma VerifyPath(cfg: Config, s: Sys, w: nat, live: nat) returns (n: nat)
    requires IsBusy(s, w) && s.workers[w].phase == Loading && Aligned(s.store)
    requires IsVerification(s.workers[w].message.topic)
    ensures var (store, outcome) := Workers.Verified(cfg.signer, cfg.sha, s.store, s.workers[w].message, live);
      Reaches(cfg, s, With(s, store, w, s.workers[w].(phase := Finished(outcome)), s.now), n)
  {
    hide Next, Envelope, Deliveries, DeliverAll, RecordVerification, Aligned;
    var b, m := s.workers[w], s.workers[w].message;
    var x := With(s, s.store, w, b.(phase := Prepared(cfg, s, m)), s.now);
    LoadFrom(cfg, s, w, x);
    OneStep(cfg, s, Load(w), x);
    if Prepared(cfg, s, m).Finished? {
      n := 1;
    } else {
      var p := Prepared(cfg, s, m);
      var k := if live < |p.queue| then live else |p.queue|;
      DeliverPath(cfg, x, w, k);
      var (effects, tally) := DeliverAll(s.store.merchantEffects, cfg.signer, p.queue[..k], p.tally);
      var b2 := b.(phase := p.(queue := p.queue[k..], tally := tally));
      var y := With(s, s.store.(merchantEffects := effects), w, b2, s.now);
      WithIsLast(s, s.store, w, x.workers[w], s.now, y.store, b2, s.now);
      ThenReaches(cfg, s, x, y, 1, k);
      var (store, outcome) := Workers.Verified(cfg.signer, cfg.sha, s.store, m, live);
      var z := With(s, store, w, b.(phase := Finished(outcome)), s.now);
      WithIsLast(s, y.store, w, b2, s.now, store, z.workers[w], s.now);
      assert p.queue[..|p.queue|] == p.queue;
      if live < |p.queue| {
        AbortFrom(cfg, y, w, z);
        ThenStep(cfg, s, y, 1 + k, Abort(w), z);
      } else {
        RecordFrom(cfg, y, w, z);
        ThenStep(cfg, s, y, 1 + k, RecordVerdict(w), z);
      }
      n := k + 2;
    }
  }

  lemma LoadFrom(cfg: Config, s: Sys, w: nat, x: Sys)
    requires IsBusy(s, w) && s.workers[w].phase == Loading && Aligned(s.store)
    requires IsVerification(s.workers[w].message.topic)
    requires x == With(s, s.store, w, s.workers[w].(phase := Prepared(cfg, s, s.workers[w].message)), s.now)
    ensures Next(cfg, s, Load(w), x)
  {
    hide Prepared;
  }

  lemma AbortFrom(cfg: Config, s: Sys, w: nat, x: Sys)
    requires IsBusy(s, w) && x == With(s, s.store, w, s.workers[w].(phase := Finished(Transient)), s.now)
    ensures Next(cfg, s, Abort(w), x)
  {
  }

  lemma RecordFrom(cfg: Config, s: Sys, w: nat, x: Sys)
    requires IsBusy(s, w) && s.workers[w].phase.Delivering? && s.workers[w].phase.queue == []
    requires var p := s.workers[w].phase;
      var (store, ok) := RecordVerification(s.store, p.run.id, VerificationAssertion(p.tally, p.fault));
      x == With(s, store, w, s.workers[w].(phase := Finished(if ok then Success else Transient)), s.now)
    ensures Next(cfg, s, RecordVerdict(w), x)
  {
    hide RecordVerification;
  }

  /** Any job from loading to its outcome. */
  lemma ProcessPath(cfg: Config, s: Sys, w: nat, live: nat) returns (n: nat)
    requires IsBusy(s, w) && s.workers[w].phase == Loading && Aligned(s.store)
    ensures var (store, outcome) := Processed(cfg.signer, cfg.sha, s.store, s.workers[w].message, s.now, live);
      Reaches(cfg, s, With(s, store, w, s.workers[w].(phase := Finished(outcome)), s.now), n)
  {
    hide Workers.Verified, ProcessStripeWebhook, Reaches;
    var m := s.workers[w].message;
    if IsVerification(m.topic) {
      n := VerifyPath(cfg, s, w, live);
    } else {
      var (store, outcome) := Processed(cfg.signer, cfg.sha, s.store, m, s.now, live);
      n := 1;
      OneStep(cfg, s, Load(w), With(s, store, w, s.workers[w].(phase := Finished(outcome)), s.now));
    }
  }

  // ----- the whole run -----

  lemma ClaimFrom(cfg: Config, s: Sys, w: nat, m: OutboxMessage) returns (x: Sys)
    requires !IsBusy(s, w) && FirstClaimable(Items(s), m.id, cfg.lease, JOB_TOPICS, s.now)
    requires m == Leased(Items(s)[m.id], cfg.owner(w), s.now).message
    ensures Next(cfg, s, Claim(w, Some(m)), x)
    ensures x.store == WithTable(s.store, Items(s)[m.id := Items(s)[m.id].(message := m)])
    ensures x.workers == s.workers[w := Busy(m, Loading, false, s.now)] && x.now == s.now && x.callers == s.callers
    ensures Alive(Items(x), m.id, cfg.owner(w))
  {
    hide FirstClaimable;
    FirstIsClaimable(Items(s), m.id, cfg.lease, s.now);
    var t := Items(s)[m.id := Leased(Items(s)[m.id], cfg.owner(w), s.now)];
    var log := if Items(s)[m.id].message.lockedBy == "" then s.log
               else s.log.(takeovers := s.log.takeovers[m.id := Takeovers(s.log, m.id) + 1]);
    x := Sys(WithTable(s.store, t), s.workers[w := Busy(m, Loading, false, s.now)], s.callers, s.now, log);
  }

  lemma FirstIsClaimable(t: Table, id: string, lease: int, now: int)
    requires FirstClaimable(t, id, lease, JOB_TOPICS, now)
    ensures id in t && Claimable(t[id], lease, JOB_TOPICS, now)
  {
  }

  /** The heartbeat loop ends in an error, or not. */
  lemma LostPath(cfg: Config, s: Sys, w: nat, lost: bool) returns (n: nat)
    requires IsBusy(s, w) && !s.workers[w].lost
    ensures Reaches(cfg, s, With(s, s.store, w, s.workers[w].(lost := lost), s.now), n)
  {
    if lost {
      n := 1;
      OneStep(cfg, s, Beat(w, true), With(s, s.store, w, s.workers[w].(lost := true), s.now));
    } else {
      assert s.workers[w := s.workers[w]] == s.workers;
      n := 0;
    }
  }

  lemma ConcludeFrom(cfg: Config, s: Sys, w: nat) returns (x: Sys)
    requires IsBusy(s, w) && s.workers[w].phase.Finished?
    ensures Next(cfg, s, Conclude(w), x)
    ensures var b := s.workers[w];
      x.store == WithTable(s.store, Concluded(Items(s), b.message, cfg.owner(w), cfg.maxAttempts, FinalOutcome(b), s.now).0)
    ensures x.workers == s.workers[w := Idle] && x.callers == s.callers && x.now == s.now
  {
    var b := s.workers[w];
    var id, outcome := b.message.id, FinalOutcome(b);
    var (t, ok) := Concluded(Items(s), b.message, cfg.owner(w), cfg.maxAttempts, outcome, s.now);
    var log := if outcome == Transient && b.message.attempts < cfg.maxAttempts && ok
               then s.log.(retries := s.log.retries[id := Retries(s.log, id) + {b.message.attempts}]) else s.log;
    x := Sys(WithTable(s.store, t), s.workers[w := Idle], s.callers, s.now, log);
  }

  /** Claiming, renewing and waiting until processing starts. */
  lemma LeasePath(cfg: Config, s: Sys, w: nat, m: OutboxMessage, beats: seq<int>, at: int) returns (x: Sys, n: nat)
    requires !IsBusy(s, w)
    requires FirstClaimable(Items(s), m.id, cfg.lease, JOB_TOPICS, s.now)
    requires m == Leased(Items(s)[m.id], cfg.owner(w), s.now).message
    requires InOrder(s.now, beats, at)
    ensures Reaches(cfg, s, x, n)
    ensures x.store == WithTable(s.store, Renewed(Items(s)[m.id := Items(s)[m.id].(message := m)], m.id, cfg.owner(w), beats))
    ensures IsBusy(x, w) && x.workers == s.workers[w := x.workers[w]] && x.callers == s.callers && x.now == at
    ensures x.workers[w].message == m && x.workers[w].phase == Loading && !x.workers[w].lost
  {
    hide Next, Renewed, FirstClaimable, InOrder, Reaches, Leased, Alive;
    var x1 := ClaimFrom(cfg, s, w, m);
    OneStep(cfg, s, Claim(w, Some(m)), x1);
    var n2 := BeatsPath(cfg, x1, w, beats, at);
    var b2 := Busy(m, Loading, false, if beats == [] then s.now else LastOf(s.now, beats));
    var x2 := With(x1, WithTable(x1.store, Renewed(Items(x1), m.id, cfg.owner(w), beats)), w, b2, LastOf(s.now, beats));
    ThenReaches(cfg, s, x1, x2, 1, n2);
    LastInOrder(s.now, beats, at);
    Wait(cfg, x2, w, at);
    x := With(x2, x2.store, w, b2, at);
    ThenReaches(cfg, s, x2, x, 1 + n2, 1);
    n := 2 + n2;
    SameWorkers(s.workers, w, x1.workers[w], b2);
    SameWorkers(s.workers, w, b2, b2);
  }

  /** Processing and concluding. */
  lemma WorkPath(cfg: Config, x: Sys, w: nat, live: nat, beatError: bool, end: int) returns (t: Sys, n: nat)
    requires IsBusy(x, w) && x.workers[w].phase == Loading && !x.workers[w].lost && Aligned(x.store) && x.now <= end
    ensures Reaches(cfg, x, t, n)
    ensures var m := x.workers[w].message;
      var (store, outcome) := Processed(cfg.signer, cfg.sha, x.store, m, x.now, live);
      t.store == WithTable(store, Concluded(store.queue.table, m, cfg.owner(w), cfg.maxAttempts,
                                            if beatError then Transient else outcome, end).0)
    ensures t.workers == x.workers[w := Idle] && t.callers == x.callers && t.now == end
  {
    hide Next, Processed, Concluded, Reaches, Aligned;
    var b := x.workers[w];
    var n1 := ProcessPath(cfg, x, w, live);
    var (store, outcome) := Processed(cfg.signer, cfg.sha, x.store, b.message, x.now, live);
    var b1 := b.(phase := Finished(outcome));
    var x1 := With(x, store, w, b1, x.now);
    var n2 := LostPath(cfg, x1, w, beatError);
    var b2 := b1.(lost := beatError);
    var x2 := With(x1, store, w, b2, x.now);
    ThenReaches(cfg, x, x1, x2, n1, n2);
    Wait(cfg, x2, w, end);
    var x3 := With(x2, store, w, b2, end);
    ThenReaches(cfg, x, x2, x3, n1 + n2, 1);
    t := ConcludeFrom(cfg, x3, w);
    ThenStep(cfg, x, x3, n1 + n2 + 1, Conclude(w), t);
    n := n1 + n2 + 2;
    SameWorkers(x.workers, w, b1, b2);
    SameWorkers(x.workers, w, b2, b2);
    SameWorkers(x.workers, w, b2, Idle);
  }

  /** Whatever RunOnce leaves in the repository, the transition system can reach: claim,
      renewals, processing, conclusion, at the same times. */
  lemma RunOnceRefines(cfg: Config, s: Sys, w: nat, m: OutboxMessage, beats: seq<int>, at: int, live: nat,
                       beatError: bool, end: int) returns (t: Sys, n: nat)
    requires !IsBusy(s, w) && Aligned(s.store)
    requires FirstClaimable(Items(s), m.id, cfg.lease, JOB_TOPICS, s.now)
    requires m == Leased(Items(s)[m.id], cfg.owner(w), s.now).message
    requires InOrder(s.now, beats, at) && at <= end
    ensures Reaches(cfg, s, t, n)
    ensures t.store == Ran(cfg.signer, cfg.sha, cfg.owner(w), cfg.maxAttempts, s.store, m, beats, at, live, beatError, end).0
    ensures t.workers == s.workers[w := Idle] && t.callers == s.callers && t.now == end
  {
    hide Next, Processed, Concluded, Renewed, FirstClaimable, Aligned, InOrder, Reaches, Leased;
    var x, n1 := LeasePath(cfg, s, w, m, beats, at);
    LeaseAligned(s.store, x.store);
    var n2;
    t, n2 := WorkPath(cfg, x, w, live, beatError, end);
    ThenReaches(cfg, s, x, t, n1, n2);
    n := n1 + n2;
    SameWorkers(s.workers, w, x.workers[w], Idle);
  }

  lemma LeaseAligned(s: Store, s': Store)
    requires Aligned(s) && s' == s.(queue := s'.queue)
    ensures Aligned(s')
  {
  }

  lemma SameWorkers(workers: map<nat, System.Worker>, w: nat, b: System.Worker, b': System.Worker)
    ensures workers[w := b][w := b'] == workers[w := b']
  {
  }

  // ----- what follows -----

  lemma {:induction false} PathGrows(cfg: Config, s: Sys, t: Sys, n: nat)
    requires Executions.Good(s) && NamedWorkers(cfg) && Reaches(cfg, s, t, n)
    ensures Executions.Good(t) && Evolves(s.store, t.store)
    decreases n
  {
    hide Next, Executions.Good, NamedWorkers, Evolves;
    NothingEvolves(s.store);
    if n > 0 {
      var a, x :| Next(cfg, s, a, x) && Reaches(cfg, x, t, n - 1);
      Executions.StepGood(cfg, s, a, x);
      PathGrows(cfg, x, t, n - 1);
      EvolvesTransitive(s.store, x.store, t.store);
    }
  }

  /** Safety carries over to whatever a path reaches. */
  lemma {:induction false} PathSafe(cfg: Config, s: Sys, t: Sys, n: nat)
    requires Executions.Good(s) && Safety.Safe(cfg, s) && NamedWorkers(cfg) && Safety.TamperDetected(cfg, t.store.runs)
    requires Reaches(cfg, s, t, n)
    ensures Executions.Good(t) && Safety.Safe(cfg, t)
    decreases n
  {
    hide Next, Executions.Good, Safety.Safe, NamedWorkers, Safety.TamperDetected, Evolves;
    if n > 0 {
      var a, x :| Next(cfg, s, a, x) && Reaches(cfg, x, t, n - 1);
      PathGrows(cfg, s, t, n);
      Safety.GrowsFrom(s.store, t.store);
      Safety.DetectedBefore(cfg, s.store.runs, t.store.runs);
      Safety.StepSafe(cfg, s, a, x);
      PathSafe(cfg, x, t, n - 1);
    }
  }

  lemma {:induction false} RenewedJobs(t: Table, id: string, owner: string, beats: seq<int>)
    requires Alive(t, id, owner)
    ensures var t' := Renewed(t, id, owner, beats);
      Alive(t', id, owner) && t'.Keys == t.Keys && t'[id].message.payload == t[id].message.payload
    decreases |beats|
  {
    if beats != [] {
      RenewedJobs(t, id, owner, beats[..|beats| - 1]);
    }
  }

  lemma VerifiedSucceeds(signer: Signer, sha: string -> Hash, s: Store, m: OutboxMessage, live: nat)
    requires Aligned(s) && m.payload.Fields? && m.payload.runID != "" && m.payload.runID in s.runs && live >= 2
    requires s.runs[m.payload.runID].id == m.payload.runID
    requires SupportedFault(m.payload.verificationFault) && m.payload.verificationFault == s.runs[m.payload.runID].fault
    requires !m.topic.WebhookReceived?
    ensures var (s', outcome) := Workers.Verified(signer, sha, s, m, live);
      outcome == Success && s'.queue == s.queue && Safety.Effective(s', m)
  {
    hide Deliveries, DeliverAll, Envelope, Passes, AddOnce, FaultName;
    var run, fault := s.runs[m.payload.runID], m.payload.verificationFault;
    AtMostTwo(signer, Envelope(run, sha), fault);
    VerdictStable(s.merchantEffects, signer, Envelope(run, sha), fault);
    Safety.EnvelopeEffect(run, sha);
    var (effects, r) := DeliverAll(s.merchantEffects, signer, Deliveries(signer, Envelope(run, sha), fault), Start(fault));
    AddedIsThere(s.reports[run.id], VerificationAssertion(r, fault));
  }

  lemma AtMostTwo(signer: Signer, envelope: Delivery, fault: Fault)
    requires Supported(fault)
    ensures |Deliveries(signer, envelope, fault)| <= 2
  {
  }

  lemma AddedIsThere(report: Report, a: Assertion)
    ensures HasAssertion(AddOnce(report, a).assertions, a.id)
  {
    if !HasAssertion(report.assertions, a.id) {
      assert (report.assertions + [a])[|report.assertions|] == a;
    }
  }

  lemma WebhookSucceeds(s: Store, m: OutboxMessage, now: int)
    requires Aligned(s) && m.topic == WebhookReceived && WebhookJobValid(m) && m.payload.stripeEventID in s.webhooks
    ensures var (s', answer) := ProcessStripeWebhook(s, m.payload.stripeEventID, now);
      answer.Some? && s'.queue == s.queue && Safety.Effective(s', m)
  {
    hide Classify, ProjectWebhook;
    Safety.SettlesReceipt(s, m.payload.stripeEventID, now);
  }

  /** A job of a consistent store succeeds, if it is left to finish. */
  lemma ProcessedSucceeds(signer: Signer, sha: string -> Hash, s: Store, t: Table, m: OutboxMessage, at: int, live: nat)
    requires Consistent(s) && MessageOK(m, s.runs, s.webhooks.Keys) && live >= 2
    ensures Aligned(WithTable(s, t))
    ensures var (s', outcome) := Processed(signer, sha, WithTable(s, t), m, at, live);
      outcome == Success && s'.queue.table == t && Safety.Effective(s', m)
  {
    hide KeysOK, BooksOK, MailOK, Workers.Verified, ProcessStripeWebhook, Safety.Effective, Aligned;
    NamesOf(s);
    LeaseAligned(s, WithTable(s, t));
    if m.topic == WebhookReceived {
      WebhookSucceeds(WithTable(s, t), m, at);
    } else {
      Safety.RunOf(s, m.payload.runID);
      VerifiedSucceeds(signer, sha, WithTable(s, t), m, live);
    }
  }

  /** Left undisturbed, a worker publishes the message it claims, with its effect: whatever
      earlier executions of the job have left behind. */
  lemma UndisturbedPublishes(signer: Signer, sha: string -> Hash, owner: string, maxAttempts: int, lease: int, s: Store,
                             m: OutboxMessage, now: int, beats: seq<int>, at: int, live: nat, end: int)
    requires Consistent(s) && owner != "" && live >= 2
    requires FirstClaimable(s.queue.table, m.id, lease, JOB_TOPICS, now)
    requires m == Leased(s.queue.table[m.id], owner, now).message
    ensures Aligned(s)
    ensures var (s', ok) := Ran(signer, sha, owner, maxAttempts, s, m, beats, at, live, false, end);
      ok && m.id in s'.queue.table && s'.queue.table[m.id].published && Safety.Effective(s', m)
  {
    hide Consistent, Aligned, Processed, Renewed, Safety.Effective, FirstClaimable, MessageOK, Leased;
    FirstIsClaimable(s.queue.table, m.id, lease, now);
    Executions.AlignedOf(s);
    LeasedJob(s, m, owner, now);
    var leased := s.queue.table[m.id := s.queue.table[m.id].(message := m)];
    RenewedJobs(leased, m.id, owner, beats);
    var renewed := Renewed(leased, m.id, owner, beats);
    ProcessedSucceeds(signer, sha, s, renewed, m, at, live);
    var (s1, outcome) := Processed(signer, sha, WithTable(s, renewed), m, at, live);
    var s' := WithTable(s1, Complete(renewed, m.id, owner).0);
    Safety.EffectiveAnyTable(s1, s'.queue, m);
  }

  lemma LeasedJob(s: Store, m: OutboxMessage, owner: string, now: int)
    requires Consistent(s) && m.id in s.queue.table && m == Leased(s.queue.table[m.id], owner, now).message
    requires !Settled(s.queue.table[m.id])
    ensures MessageOK(m, s.runs, s.webhooks.Keys)
    ensures Alive(s.queue.table[m.id := s.queue.table[m.id].(message := m)], m.id, owner)
  {
    hide KeysOK, BooksOK, Sound;
    assert MessageOK(s.queue.table[m.id].message, s.runs, s.webhooks.Keys);
  }
}
