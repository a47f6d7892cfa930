/** At-least-once delivery: no message is lost. It is published with its effect, or it was
    claimed as often as allowed, or it can be claimed again. */
module AtLeastOnce {
  import opened Options
  import opened Domain
  import opened Outbox
  import opened StoreSpec
  import opened Jobs
  import opened Consistency
  import opened System
  import opened Executions
  import opened Safety
  import opened Leases

  predicate FailedAt(t: Table, id: string) {
    id in t && t[id].failed
  }

  predicate Exhausted(t: Table, id: string, max: nat) {
    FailedAt(t, id) ==> t[id].message.attempts >= max
  }

  /** Only messages that were claimed as often as allowed have failed. */
  ghost predicate OnlyExhaustedFail(t: Table, max: nat) {
    forall id :: Exhausted(t, id, max)
  }

  lemma OthersFailNothing(t: Table, t': Table, max: nat)
    requires OnlyAdds(t, t') && OnlyExhaustedFail(t, max)
    ensures OnlyExhaustedFail(t', max)
  {
    forall id
      ensures Exhausted(t', id, max)
    {
      assert Exhausted(t, id, max);
    }
  }

  /** No job of a stored message fails for good: it concludes with success or for another try. */
  lemma NeverPermanent(cfg: Config, s: Sys, w: nat)
    requires Safe(cfg, s) && IsBusy(s, w) && s.workers[w].phase.Finished?
    ensures FinalOutcome(s.workers[w]) != Permanent
  {
    hide AllPass, EffectsOwned, PublishedEffective, Effective, SameJob;
    assert WorkerOK(cfg, s.store, s.workers[w]);
  }

  lemma ConcludeFailsExhausted(cfg: Config, s: Sys, w: nat, s': Sys)
    requires Safe(cfg, s) && Leases.Leased(cfg, s) && ConcludeStep(cfg, s, w, s')
    requires OnlyExhaustedFail(Items(s), cfg.maxAttempts)
    ensures OnlyExhaustedFail(Items(s'), cfg.maxAttempts)
  {
    hide Safe, AllTallied, RetryDelay;
    NeverPermanent(cfg, s, w);
    assert Current(Items(s), cfg.owner(w), s.workers[w]);
    forall id
      ensures Exhausted(Items(s'), id, cfg.maxAttempts)
    {
      assert Exhausted(Items(s), id, cfg.maxAttempts);
    }
  }

  lemma MoveFailsNothing(cfg: Config, s: Sys, a: Action, s': Sys)
    requires (a.Claim? || a.Beat?) && Next(cfg, s, a, s') && OnlyExhaustedFail(Items(s), cfg.maxAttempts)
    ensures OnlyExhaustedFail(Items(s'), cfg.maxAttempts)
  {
    forall id
      ensures Exhausted(Items(s'), id, cfg.maxAttempts)
    {
      assert Exhausted(Items(s), id, cfg.maxAttempts);
    }
  }

  lemma StepExhausted(cfg: Config, s: Sys, a: Action, s': Sys)
    requires Good(s) && Safe(cfg, s) && Leases.Leased(cfg, s) && Next(cfg, s, a, s')
    requires OnlyExhaustedFail(Items(s), cfg.maxAttempts)
    ensures OnlyExhaustedFail(Items(s'), cfg.maxAttempts)
  {
    hide Consistent, CallersOK, Safe, Leases.Leased, OnlyAdds, OnlyExhaustedFail, ClaimStep, BeatStep, ConcludeStep, LoadStep,
         CreateStep, SeedStep, DeliverStep, RecordStep, MarkWebhookSeen;
    if a.Conclude? {
      ConcludeFailsExhausted(cfg, s, a.w, s');
    } else if MovesLeases(a) {
      MoveFailsNothing(cfg, s, a, s');
    } else {
      OthersMoveNoLease(cfg, s, a, s');
      OthersFailNothing(Items(s), Items(s'), cfg.maxAttempts);
    }
  }

  lemma {:induction false} AlwaysExhausted(cfg: Config, states: seq<Sys>, actions: seq<Action>, i: nat)
    requires Execution(cfg, states, actions) && DistinctWorkers(cfg) && i < |states|
    requires TamperDetected(cfg, states[i].store.runs)
    ensures OnlyExhaustedFail(Items(states[i]), cfg.maxAttempts)
  {
    hide Good, Safe, Leases.Leased, Next, DistinctWorkers, TamperDetected, Evolves;
    if i > 0 {
      NamedOf(cfg);
      HistoryGrows(cfg, states, actions, i - 1, i);
      GrowsFrom(states[i - 1].store, states[i].store);
      DetectedBefore(cfg, states[i - 1].store.runs, states[i].store.runs);
      AlwaysExhausted(cfg, states, actions, i - 1);
      AlwaysSafe(cfg, states, actions, i - 1);
      AlwaysLeased(cfg, states, actions, i - 1);
      assert NextAt(cfg, states, actions, i - 1);
      StepExhausted(cfg, states[i - 1], actions[i - 1], states[i]);
    }
  }

  /** From then on the message can be claimed by anyone, if nobody does anything to it. */
  function ClaimableFrom(item: OutboxItem, lease: int): int {
    if Locked(item) && item.message.lockedAt + lease + 1 > item.availableAt then item.message.lockedAt + lease + 1
    else item.availableAt
  }

  lemma TopicOf(s: Store, id: string)
    requires Consistent(s) && id in s.queue.table
    ensures s.queue.table[id].message.topic in JOB_TOPICS
  {
    hide KeysOK, BooksOK, Sound;
    var m := s.queue.table[id].message;
    assert MessageOK(m, s.runs, s.webhooks.Keys);
    assert JOB_TOPICS[0] == RunPersisted && JOB_TOPICS[1] == VerificationQueued && JOB_TOPICS[2] == WebhookReceived;
  }

  /** In every state of every execution, each message is published and has had its effect, once;
      or has failed, and was claimed at least maxAttempts times; or is claimable at all times
      from a certain one on. */
  lemma AtLeastOnce(cfg: Config, states: seq<Sys>, actions: seq<Action>, i: nat, id: string)
    requires Execution(cfg, states, actions) && DistinctWorkers(cfg) && i < |states|
    requires TamperDetected(cfg, states[i].store.runs) && id in Items(states[i])
    ensures var item := Items(states[i])[id];
      && (item.published ==> DoneOnce(states[i].store, item.message))
      && (item.failed ==> ClaimCount(actions, i, id) >= cfg.maxAttempts)
      && (!Settled(item) ==> forall t :: Claimable(item, cfg.lease, JOB_TOPICS, t) <==> t >= ClaimableFrom(item, cfg.lease))
  {
    hide Execution, Good, DistinctWorkers, TamperDetected, DoneOnce, Consistent, JOB_TOPICS;
    NamedOf(cfg);
    ReachableConsistent(cfg, states, actions, i);
    TopicOf(states[i].store, id);
    AlwaysExhausted(cfg, states, actions, i);
    AttemptsCountClaims(cfg, states, actions, i, id);
    assert Exhausted(Items(states[i]), id, cfg.maxAttempts);
    if Items(states[i])[id].published {
      ExactlyOnce(cfg, states, actions, i, id);
    }
    if !Settled(Items(states[i])[id]) {
      SettledOrClaimable(Items(states[i])[id], cfg.lease);
    }
  }

  lemma SettledOrClaimable(item: OutboxItem, lease: int)
    requires item.message.topic in JOB_TOPICS && !Settled(item)
    ensures forall t :: Claimable(item, lease, JOB_TOPICS, t) <==> t >= ClaimableFrom(item, lease)
  {
    hide JOB_TOPICS;
  }

  /** And no message disappears, or turns into another job. */
  lemma NoMessageIsLost(cfg: Config, states: seq<Sys>, actions: seq<Action>, i: nat, j: nat, id: string)
    requires Execution(cfg, states, actions) && NamedWorkers(cfg) && i <= j < |states| && id in Items(states[i])
    ensures id in Items(states[j]) && Job(Items(states[j])[id].message) == Job(Items(states[i])[id].message)
    ensures Settled(Items(states[i])[id]) ==> Items(states[j])[id] == Items(states[i])[id]
  {
    hide Execution, RunsGrow, LedgersGrow, ReportsGrow, CorrelationsStay, Stays, EffectsGrow, Job;
    HistoryGrows(cfg, states, actions, i, j);
  }
}
