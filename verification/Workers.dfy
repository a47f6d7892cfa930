/** The worker process: the relay, the repository merchant and RunOnce, as code that changes
    the repository step by step. What the environment decides is a parameter: the clock, how
    many deliveries happen before the context is cancelled, when heartbeats land, and whether
    the heartbeat loop ends in an error. */
module Workers {
  import opened Options
  import opened Hex
  import opened Text
  import opened Domain
  import opened Outbox
  import opened StoreSpec
  import opened Verification
  import opened Jobs
  import opened MemoryRepository

  // ----- the merchant and the relay -----

  class RepositoryMerchant {
    const repo: MemoryRepository
    const signer: Signer

    constructor (repo: MemoryRepository, signer: Signer)
      ensures this.repo == repo && this.signer == signer
    {
      this.repo := repo;
      this.signer := signer;
    }

    method Deliver(d: Delivery) returns (receipt: Receipt)
      requires repo.Valid()
      modifies repo`merchantEffects
      ensures repo.Valid()
      ensures (repo.merchantEffects, receipt) == Verification.Deliver(old(repo.merchantEffects), signer, d)
      ensures receipt.accepted == receipt.signatureValid == Genuine(signer, d)
      ensures receipt.businessEffects == if receipt.accepted then 1 else 0
    {
      if d.version != CONTRACT_VERSION || !Verify(signer, d) {
        return Receipt(false, false, false, 0);
      }
      var duplicate := repo.ApplyReferenceMerchantEffect(d.effectID, d.sequence);
      return Receipt(true, duplicate, true, 1);
    }
  }

  /** A buffer filled with the digit zero. */
  method StringsOfZero(length: nat) returns (s: string)
    ensures s == Zeros(length)
  {
    var value := new char[length];
    for index := 0 to length
      invariant forall i :: 0 <= i < index ==> value[i] == '0'
    {
      value[index] := '0';
    }
    s := value[..];
  }

  lemma NothingDelivered(effects: map<string, int>, signer: Signer, queue: seq<Delivery>, r: RelayResult)
    ensures DeliverAll(effects, signer, queue[..0], r) == (effects, r)
  {
  }

  lemma {:induction false} DeliverAllSnoc(effects: map<string, int>, signer: Signer, queue: seq<Delivery>, d: Delivery,
                                           r: RelayResult)
    ensures var (e, a) := DeliverAll(effects, signer, queue, r);
      var (e', receipt) := Deliver(e, signer, d);
      DeliverAll(effects, signer, queue + [d], r) == (e', Tally(a, receipt))
    decreases |queue|
  {
    if queue == [] {
      assert queue + [d] == [d] && [d][1..] == [];
    } else {
      var (e1, receipt1) := Deliver(effects, signer, queue[0]);
      assert (queue + [d])[1..] == queue[1..] + [d];
      DeliverAllSnoc(e1, signer, queue[1..], d, Tally(r, receipt1));
    }
  }

  class Relay {
    const signer: Signer
    const target: RepositoryMerchant

    constructor (signer: Signer, target: RepositoryMerchant)
      ensures this.signer == signer && this.target == target
    {
      this.signer := signer;
      this.target := target;
    }

    /** What a fault makes of a signed envelope, and where the counting starts. */
    method Prepare(base: Delivery, fault: Fault) returns (deliveries: seq<Delivery>, result: RelayResult)
      requires Supported(fault) && base.version == CONTRACT_VERSION && base.signature == Sign(signer, base)
      ensures deliveries == Deliveries(signer, base, fault) && result == Start(fault)
      ensures |deliveries| == (if fault in {Duplicate, Reorder} then 2 else 1)
      ensures result.attempts == if fault == Timeout then 1 else 0
      ensures fault != Tamper ==> deliveries[|deliveries| - 1] == base
      ensures fault == Duplicate ==> deliveries[0] == base
      ensures fault == Reorder ==>
        && deliveries[0].sequence == base.sequence + 1 && deliveries[0].eventID == base.eventID + "_newer"
        && deliveries[0].effectID == base.effectID && deliveries[0].runID == base.runID
        && deliveries[0].payloadHash == base.payloadHash && Genuine(signer, deliveries[0])
      ensures fault == Tamper ==>
        && deliveries[0].(payloadHash := base.payloadHash) == base
        && |deliveries[0].payloadHash| == |base.payloadHash| && forall c :: c in deliveries[0].payloadHash ==> c == '0'
    {
      hide Sign, Genuine, SigningInput;
      deliveries := [base];
      result := RelayResult(fault, 0, 0, 0, 0, 0);
      assert Signed(signer, base.(version := CONTRACT_VERSION)) == base;
      match fault {
        case NoFault =>
        case Duplicate =>
          deliveries := deliveries + [base];
        case Reorder =>
          var newer := base.(eventID := base.eventID + "_newer", sequence := base.sequence + 1);
          SignedIsGenuine(signer, newer);
          newer := newer.(signature := Sign(signer, newer));
          deliveries := [newer, base];
        case Timeout =>
          result := result.(attempts := result.attempts + 1);
        case Tamper =>
          var zeros := StringsOfZero(|deliveries[0].payloadHash|);
          deliveries := deliveries[0 := deliveries[0].(payloadHash := zeros)];
      }
    }

    /** Make the deliveries of a fault and send them one by one, as long as the context
        lives. No result stands for the error return. */
    method Execute(envelope: Delivery, fault: Fault, live: nat) returns (answer: Option<RelayResult>)
      requires target.repo.Valid() && target.signer == signer
      modifies target.repo`merchantEffects
      ensures target.repo.Valid()
      ensures !Supported(fault) ==> answer.None? && target.repo.merchantEffects == old(target.repo.merchantEffects)
      ensures Supported(fault) ==>
        var queue := Deliveries(signer, envelope, fault);
        var sent := if live < |queue| then queue[..live] else queue;
        var (effects, r) := DeliverAll(old(target.repo.merchantEffects), signer, sent, Start(fault));
        && target.repo.merchantEffects == effects
        && answer == if live < |queue| then None else Some(r)
      ensures Supported(fault) ==>
        var there, shows := envelope.effectID in old(target.repo.merchantEffects), TamperShows(signer, envelope);
        var n := if live < Sends(fault) then live else Sends(fault);
        && answer == (if live < Sends(fault) then None else Some(Totals(fault, there, shows)))
        && target.repo.merchantEffects
           == EffectsAt(old(target.repo.merchantEffects), envelope.effectID, envelope.sequence, fault, shows, n)
    {
      hide Sign, Deliveries, Deliver, DeliverAll, TamperShows, EffectsAt, Totals, Sends;
      var base := envelope.(version := CONTRACT_VERSION);
      base := base.(signature := Sign(signer, base));
      if fault !in {NoFault, Duplicate, Reorder, Timeout, Tamper} {
        return None;
      }
      SignedTwice(signer, envelope, fault);
      ExecutionTotals(target.repo.merchantEffects, signer, envelope, fault, if live < Sends(fault) then live else Sends(fault));
      var deliveries, result := Prepare(base, fault);
      ghost var before := target.repo.merchantEffects;
      NothingDelivered(before, signer, deliveries, Start(fault));
      for i := 0 to |deliveries|
        invariant target.repo.Valid() && i <= live
        invariant (target.repo.merchantEffects, result) == DeliverAll(before, signer, deliveries[..i], Start(fault))
      {
        if i >= live {
          return None;
        }
        DeliverAllSnoc(before, signer, deliveries[..i], deliveries[i], Start(fault));
        assert deliveries[..i + 1] == deliveries[..i] + [deliveries[i]];
        var receipt := target.Deliver(deliveries[i]);
        result := result.(attempts := result.attempts + 1, businessEffects := receipt.businessEffects);
        if receipt.accepted {
          result := result.(accepted := result.accepted + 1);
        } else {
          result := result.(rejected := result.rejected + 1);
        }
        if receipt.duplicate {
          result := result.(duplicates := result.duplicates + 1);
        }
      }
      assert deliveries[..|deliveries|] == deliveries;
      return Some(result);
    }
  }

  /** The signature of an envelope does not depend on what its signature field held. */
  lemma SignedTwice(signer: Signer, envelope: Delivery, fault: Fault)
    requires Supported(fault)
    ensures var base := envelope.(version := CONTRACT_VERSION);
      && Deliveries(signer, Signed(signer, base), fault) == Deliveries(signer, envelope, fault)
      && Sign(signer, Signed(signer, base)) == Sign(signer, base)
  {
    var base := envelope.(version := CONTRACT_VERSION);
    assert SigningInput(Signed(signer, base)) == SigningInput(base);
    assert Signed(signer, Signed(signer, base).(version := CONTRACT_VERSION)) == Signed(signer, base);
  }

  lemma EnvelopeOf(run: Run, sha: string -> Hash)
    ensures Envelope(run, sha).effectID == "merchant_effect_" + run.id && Envelope(run, sha).sequence == 1
  {
  }

  // ----- what processing does to the store -----

  function Verified(signer: Signer, sha: string -> Hash, s: Store, m: OutboxMessage, live: nat): (Store, Outcome) {
    if !m.payload.Fields? || m.payload.runID == "" || m.payload.runID !in s.runs then (s, Transient)
    else
      var run := s.runs[m.payload.runID];
      var fault := EffectiveFault(m.payload, run);
      if !Supported(fault) then (s, Transient)
      else
        var queue := Deliveries(signer, Envelope(run, sha), fault);
        if live < |queue| then
          (s.(merchantEffects := DeliverAll(s.merchantEffects, signer, queue[..live], Start(fault)).0), Transient)
        else
          var (effects, r) := DeliverAll(s.merchantEffects, signer, queue, Start(fault));
          var (s', ok) := RecordVerification(s.(merchantEffects := effects), run.id, VerificationAssertion(r, fault));
          (s', if ok then Success else Transient)
  }

  ghost function Processed(signer: Signer, sha: string -> Hash, s: Store, m: OutboxMessage, now: int, live: nat): (Store, Outcome)
    requires Aligned(s)
  {
    match m.topic
    case RunPersisted => Verified(signer, sha, s, m, live)
    case VerificationQueued => Verified(signer, sha, s, m, live)
    case WebhookReceived =>
      if !WebhookJobValid(m) then (s, Permanent)
      else
        var (s', answer) := ProcessStripeWebhook(s, m.payload.stripeEventID, now);
        (s', if answer.Some? then Success else Transient)
    case _ => (s, Success)
  }

  /** The table after heartbeats at the given times. */
  function Renewed(t: Table, id: string, owner: string, beats: seq<int>): Table
    decreases |beats|
  {
    if beats == [] then t
    else Heartbeat(Renewed(t, id, owner, beats[..|beats| - 1]), id, owner, beats[|beats| - 1]).0
  }

  predicate Alive(t: Table, id: string, owner: string) {
    id in t && !Settled(t[id]) && t[id].message.lockedBy == owner
  }

  lemma {:induction false} RenewedInVain(t: Table, id: string, owner: string, beats: seq<int>)
    requires !Alive(t, id, owner)
    ensures Renewed(t, id, owner, beats) == t
    decreases |beats|
  {
    if beats != [] {
      RenewedInVain(t, id, owner, beats[..|beats| - 1]);
    }
  }

  /** How an outcome leaves the message. */
  function Concluded(t: Table, m: OutboxMessage, owner: string, maxAttempts: int, outcome: Outcome, now: int): (Table, bool) {
    match outcome
    case Success => Complete(t, m.id, owner)
    case Permanent => Fail(t, m.id, owner)
    case Transient =>
      if m.attempts >= maxAttempts then Fail(t, m.id, owner)
      else Retry(t, m.id, owner, RetryDelay(m.attempts), now)
  }

  // ----- the worker -----

  class Worker {
    const repo: MemoryRepository
    const relay: Relay
    const sha: string -> Hash
    const id: string
    const lease: int
    const poll: int
    const maxAttempts: int

    ghost predicate Ready()
      reads repo
    {
      repo.Valid() && relay.target.repo == repo && relay.target.signer == relay.signer
    }

    /** Defaults stand in for settings that are missing or not positive. */
    constructor (repo: MemoryRepository, relay: Relay, sha: string -> Hash, id: string, lease: int, poll: int,
                 maxAttempts: int)
      ensures this.repo == repo && this.relay == relay && this.sha == sha
      ensures this.id != "" && this.lease > 0 && this.poll > 0 && this.maxAttempts > 0
      ensures this.id == if id != "" then id else "worker-local"
      ensures this.lease == if lease > 0 then lease else 30 * SECOND
      ensures this.poll == if poll > 0 then poll else SECOND / 2
      ensures this.maxAttempts == if maxAttempts > 0 then maxAttempts else 5
    {
      this.repo, this.relay, this.sha := repo, relay, sha;
      this.id := if id == "" then "worker-local" else id;
      this.lease := if lease <= 0 then 30 * SECOND else lease;
      this.poll := if poll <= 0 then 500 * 1_000_000 else poll;
      this.maxAttempts := if maxAttempts <= 0 then 5 else maxAttempts;
    }

    /** Execute the relay for a run and judge the result; no verdict stands for the error return. */
    method VerdictFor(run: Run, fault: Fault, live: nat) returns (verdict: Option<bool>)
      requires Ready()
      modifies repo`merchantEffects
      ensures Ready()
      ensures !Supported(fault) ==> verdict.None? && repo.merchantEffects == old(repo.merchantEffects)
      ensures Supported(fault) ==>
        var queue := Deliveries(relay.signer, Envelope(run, sha), fault);
        var sent := if live < |queue| then queue[..live] else queue;
        var (effects, r) := DeliverAll(old(repo.merchantEffects), relay.signer, sent, Start(fault));
        && repo.merchantEffects == effects
        && verdict == if live < |queue| then None else Some(Passes(r))
      ensures Supported(fault) ==>
        var shows, n := TamperShows(relay.signer, Envelope(run, sha)), if live < Sends(fault) then live else Sends(fault);
        && verdict == (if live < Sends(fault) then None else Some(fault == Tamper ==> shows))
        && repo.merchantEffects == EffectsAt(old(repo.merchantEffects), "merchant_effect_" + run.id, 1, fault, shows, n)
    {
      hide Deliveries, DeliverAll, Envelope, Supported, Start, TamperShows, EffectsAt, Sends;
      EnvelopeOf(run, sha);
      var answer := relay.Execute(Envelope(run, sha), fault, live);
      if answer.None? {
        return None;
      }
      TotalsPass(fault, EffectID(run.id) in old(repo.merchantEffects), TamperShows(relay.signer, Envelope(run, sha)));
      var result := answer.value;
      var passed := false;
      match result.fault {
        case Duplicate => passed := result.businessEffects == 1 && result.duplicates >= 1 && result.rejected == 0;
        case Reorder => passed := result.businessEffects == 1 && result.duplicates >= 1 && result.rejected == 0;
        case Timeout => passed := result.businessEffects == 1 && result.rejected == 0;
        case Tamper => passed := result.businessEffects == 0 && result.rejected >= 1;
        case _ => passed := result.businessEffects == 1 && result.rejected == 0;
      }
      return Some(passed);
    }

    method ProcessVerification(m: OutboxMessage, live: nat) returns (outcome: Outcome)
      requires Ready()
      modifies repo`merchantEffects, repo`reports
      ensures Ready() && (repo.State(), outcome) == Verified(relay.signer, sha, old(repo.State()), m, live)
    {
      hide Deliveries, DeliverAll, Envelope, AddOnce, Passes, Supported, Start, FaultName;
      if m.payload.Malformed? || m.payload.runID == "" || m.payload.runID !in repo.runs {
        return Transient;
      }
      var run := repo.runs[m.payload.runID];
      var fault := m.payload.verificationFault;
      if fault == Unset {
        fault := run.fault;
      }
      if fault == Unset {
        fault := Duplicate;
      }
      var verdict := VerdictFor(run, fault, live);
      if verdict.None? {
        return Transient;
      }
      var assertion := Assertion(MERCHANT_ASSERTION, verdict.value, CONTRACT_VERSION + ":" + FaultName(fault));
      var recorded := repo.RecordVerification(run.id, assertion);
      return if recorded then Success else Transient;
    }

    method ProcessWebhook(m: OutboxMessage, now: int) returns (outcome: Outcome)
      requires Ready()
      modifies repo`webhookResults, repo`events, repo`runs, repo`reports
      ensures Ready()
      ensures outcome == Permanent <==>
        m.payload.Malformed? || m.payload.stripeEventID == "" || m.payload.eventType == ""
        || m.payload.stripeEventID != m.aggregateID
      ensures outcome == Transient ==> repo.State() == old(repo.State()) && m.payload.stripeEventID !in repo.webhooks
      ensures if !WebhookJobValid(m) then repo.State() == old(repo.State()) && outcome == Permanent
              else
                var (s', answer) := StoreSpec.ProcessStripeWebhook(old(repo.State()), m.payload.stripeEventID, now);
                repo.State() == s' && outcome == if answer.Some? then Success else Transient
    {
      if m.payload.Malformed? || m.payload.stripeEventID == "" || m.payload.eventType == ""
         || m.payload.stripeEventID != m.aggregateID {
        return Permanent;
      }
      var answer := repo.ProcessStripeWebhook(m.payload.stripeEventID, now);
      return if answer.Some? then Success else Transient;
    }

    method Process(m: OutboxMessage, now: int, live: nat) returns (outcome: Outcome)
      requires Ready()
      modifies repo`merchantEffects, repo`webhookResults, repo`events, repo`runs, repo`reports
      ensures Ready() && (repo.State(), outcome) == Processed(relay.signer, sha, old(repo.State()), m, now, live)
      ensures m.topic !in {RunPersisted, VerificationQueued, WebhookReceived} ==>
        outcome == Success && repo.State() == old(repo.State())
    {
      match m.topic {
        case RunPersisted => outcome := ProcessVerification(m, live);
        case VerificationQueued => outcome := ProcessVerification(m, live);
        case WebhookReceived => outcome := ProcessWebhook(m, now);
        case _ => outcome := Success;
      }
    }

    /** The renewals of the heartbeat loop. It ends with an error as soon as the lease is gone. */
    method Beat(m: OutboxMessage, beats: seq<int>) returns (lost: bool)
      requires Ready()
      modifies repo`outbox
      ensures Ready() && repo.outbox == Renewed(old(repo.outbox), m.id, id, beats)
      ensures lost <==> beats != [] && !Alive(old(repo.outbox), m.id, id)
    {
      lost := false;
      for i := 0 to |beats|
        invariant Ready() && repo.outbox == Renewed(old(repo.outbox), m.id, id, beats[..i])
        invariant Alive(repo.outbox, m.id, id) == Alive(old(repo.outbox), m.id, id)
        invariant !lost && (i > 0 ==> Alive(old(repo.outbox), m.id, id))
      {
        assert beats[..i + 1][..i] == beats[..i];
        var alive := repo.HeartbeatOutbox(m.id, id, beats[i]);
        if !alive {
          RenewedInVain(old(repo.outbox), m.id, id, beats);
          return true;
        }
      }
      assert beats[..|beats|] == beats;
    }

    /** One claim, its processing under heartbeats, and its conclusion. The heartbeat's error
        wins over the outcome of the processing, even when that has committed. */
    method RunOnce(now: int, beats: seq<int>, at: int, live: nat, beatError: bool, end: int)
      returns (claimed: Option<OutboxMessage>, ok: bool)
      requires Ready()
      modifies repo
      ensures Ready()
      ensures claimed.None? ==> repo.State() == old(repo.State())
                                && forall x :: x in repo.outbox ==> !Claimable(repo.outbox[x], lease, JOB_TOPICS, now)
      ensures claimed.Some? ==>
        var m, before := claimed.value, old(repo.State());
        && FirstClaimable(before.queue.table, m.id, lease, JOB_TOPICS, now)
        && m == Leased(before.queue.table[m.id], id, now).message
        && (repo.State(), ok)
           == Ran(relay.signer, sha, id, maxAttempts, before, m, beats, at, live, beatError, end)
    {
      hide Verified, Processed, AddOnce, RetryDelay;
      claimed := repo.ClaimOutbox(id, lease, JOB_TOPICS, now);
      if claimed.None? {
        return None, true;
      }
      var m := claimed.value;
      var lost := Beat(m, beats);
      var outcome := Process(m, at, live);
      if lost || beatError {
        outcome := Transient;
      }
      match outcome {
        case Success => ok := repo.CompleteOutbox(m.id, id);
        case Permanent => ok := repo.FailOutbox(m.id, id);
        case Transient =>
          if m.attempts >= maxAttempts {
            ok := repo.FailOutbox(m.id, id);
          } else {
            ok := repo.RetryOutbox(m.id, id, RetryDelay(m.attempts), end);
          }
      }
    }
  }

  /** The store after one run of the worker on a message that it claimed. */
  ghost function Ran(signer: Signer, sha: string -> Hash, owner: string, maxAttempts: int, s: Store, m: OutboxMessage,
                     beats: seq<int>, at: int, live: nat, beatError: bool, end: int): (Store, bool)
    requires Aligned(s) && m.id in s.queue.table
  {
    var leased := s.queue.table[m.id := s.queue.table[m.id].(message := m)];
    var renewed := Renewed(leased, m.id, owner, beats);
    var (s', outcome) := Processed(signer, sha, s.(queue := s.queue.(table := renewed)), m, at, live);
    var (t, ok) := Concluded(s'.queue.table, m, owner, maxAttempts, if beatError then Transient else outcome, end);
    (s'.(queue := s'.queue.(table := t)), ok)
  }

  lemma {:induction false} RenewedFlags(t: Table, id: string, owner: string, beats: seq<int>)
    requires id in t
    ensures var t' := Renewed(t, id, owner, beats);
      id in t' && t'[id].published == t[id].published && t'[id].failed == t[id].failed
      && t'[id].message.lockedBy == t[id].message.lockedBy
    decreases |beats|
  {
    if beats != [] {
      RenewedFlags(t, id, owner, beats[..|beats| - 1]);
    }
  }

  lemma ProcessedQueue(signer: Signer, sha: string -> Hash, s: Store, m: OutboxMessage, now: int, live: nat)
    requires Aligned(s)
    ensures Processed(signer, sha, s, m, now, live).0.queue == s.queue
  {
    hide Verified, ProcessStripeWebhook, Aligned;
    VerifiedQueue(signer, sha, s, m, live);
    if m.payload.Fields? {
      WebhookQueue(s, m.payload.stripeEventID, now);
    }
  }

  lemma VerifiedQueue(signer: Signer, sha: string -> Hash, s: Store, m: OutboxMessage, live: nat)
    ensures Verified(signer, sha, s, m, live).0.queue == s.queue
  {
    hide Deliveries, DeliverAll, RecordVerification, Envelope, EffectiveFault, Supported, VerificationAssertion, Start;
    if m.payload.Fields? && m.payload.runID in s.runs {
      var run := s.runs[m.payload.runID];
      var fault := EffectiveFault(m.payload, run);
      if Supported(fault) {
        var (effects, r) := DeliverAll(s.merchantEffects, signer, Deliveries(signer, Envelope(run, sha), fault), Start(fault));
        RecordQueue(s.(merchantEffects := effects), run.id, VerificationAssertion(r, fault));
      }
    }
  }

  lemma RecordQueue(s: Store, r: string, a: Assertion)
    ensures RecordVerification(s, r, a).0.queue == s.queue
  {
    hide AddOnce;
  }

  lemma WebhookQueue(s: Store, e: string, now: int)
    requires Aligned(s)
    ensures ProcessStripeWebhook(s, e, now).0.queue == s.queue
  {
    hide Classify, AddOnce, NextSequence;
  }

  /** A worker that holds the claim it has just made, and whose heartbeat loop ends in an
      error, does not publish: whatever the processing came to, the message is sent back with
      its delay, or failed if it was claimed as often as allowed. */
  lemma HeartbeatErrorWins(signer: Signer, sha: string -> Hash, owner: string, maxAttempts: int, s: Store, m: OutboxMessage,
                           beats: seq<int>, at: int, live: nat, end: int)
    requires Aligned(s) && m.id in s.queue.table && !Settled(s.queue.table[m.id]) && m.lockedBy == owner
    ensures var (s', ok) := Ran(signer, sha, owner, maxAttempts, s, m, beats, at, live, true, end);
      && ok && m.id in s'.queue.table
      && var item := s'.queue.table[m.id];
      && !item.published && item.message.lockedBy == "" && (item.failed <==> m.attempts >= maxAttempts)
      && (m.attempts < maxAttempts ==> item.availableAt == end + RetryDelay(m.attempts))
  {
    hide Processed, Renewed, RetryDelay, Aligned;
    var leased := s.queue.table[m.id := s.queue.table[m.id].(message := m)];
    RenewedFlags(leased, m.id, owner, beats);
    var renewed := Renewed(leased, m.id, owner, beats);
    TableAligned(s, renewed);
    ProcessedQueue(signer, sha, s.(queue := s.queue.(table := renewed)), m, at, live);
  }

  lemma TableAligned(s: Store, t: Table)
    requires Aligned(s)
    ensures Aligned(s.(queue := s.queue.(table := t)))
  {
  }
}
