/** The in-memory adapter itself: fields updated in place, scanning loops, and contracts
    that tie every method to the state functions of Store and Outbox. The clock is a
    parameter wherever the adapter reads it. */
module MemoryRepository {
  import opened Options
  import opened Hex
  import opened Text
  import opened Identifiers
  import opened Domain
  import opened Sequences
  import opened Outbox
  import opened StoreSpec

  /** strictly increasing in Go's string order */
  ghost predicate SortedNames(names: seq<string>) {
    forall i, j :: 0 <= i < j < |names| ==> Less(names[i], names[j])
  }

  /** sort.Strings on distinct names. */
  method SortStrings(names: seq<string>) returns (sorted: seq<string>)
    requires AllDistinct(names)
    ensures SortedNames(sorted) && Elements(sorted) == Elements(names)
  {
    sorted := [];
    for n := 0 to |names|
      invariant SortedNames(sorted) && Elements(sorted) == Elements(names[..n])
    {
      var x := names[n];
      assert x !in names[..n];
      assert x !in sorted by {
        assert x in sorted ==> x in Elements(sorted);
      }
      var k := |sorted|;
      while k > 0 && Less(x, sorted[k - 1])
        invariant 0 <= k <= |sorted|
        invariant forall i :: k <= i < |sorted| ==> Less(x, sorted[i])
      {
        k := k - 1;
      }
      InsertSorted(sorted, k, x);
      assert names[..n + 1] == names[..n] + [x];
      sorted := sorted[..k] + [x] + sorted[k..];
    }
    assert names[..|names|] == names;
  }

  lemma InsertSorted(s: seq<string>, k: nat, x: string)
    requires SortedNames(s) && k <= |s| && x !in s
    requires k > 0 ==> !Less(x, s[k - 1])
    requires forall i :: k <= i < |s| ==> Less(x, s[i])
    ensures SortedNames(s[..k] + [x] + s[k..])
    ensures Elements(s[..k] + [x] + s[k..]) == Elements(s) + {x}
  {
    var r := s[..k] + [x] + s[k..];
    forall i | 0 <= i < k
      ensures Less(s[i], x)
    {
      LessTotal(s[k - 1], x);
      assert s[k - 1] in s;
      if i < k - 1 {
        LessTransitive(s[i], s[k - 1], x);
      }
    }
    forall y
      ensures y in r <==> y in s || y == x
    {
      if y in s {
        var i :| 0 <= i < |s| && s[i] == y;
        assert r[if i < k then i else i + 1] == y;
      }
      assert r[k] == x;
    }
  }

  class MemoryRepository {
    var runs: map<string, Run>
    var events: map<string, seq<Event>>
    var reports: map<string, Report>
    var idempotency: map<Hash, Record>
    var tenantIdempotency: map<string, Record>
    var projectByRun: map<string, string>
    var correlationByRun: map<string, string>
    var webhooks: map<string, WebhookReceipt>
    var webhookResults: map<string, WebhookResult>
    var nextRun: nat
    var outbox: Table
    var nextOutbox: nat
    var merchantEffects: map<string, int>

    ghost function State(): Store
      reads this
    {
      Store(runs, events, reports, idempotency, tenantIdempotency, projectByRun, correlationByRun,
            webhooks, webhookResults, nextRun, Queue(outbox, nextOutbox), merchantEffects)
    }

    ghost predicate Valid()
      reads this
    {
      Aligned(State()) && Keyed(outbox)
    }

    constructor ()
      ensures Valid() && State() == EMPTY
    {
      runs, events, reports := map[], map[], map[];
      idempotency, tenantIdempotency := map[], map[];
      projectByRun, correlationByRun := map[], map[];
      webhooks, webhookResults := map[], map[];
      nextRun, outbox, nextOutbox := 4, map[], 1;
      merchantEffects := map[];
    }

    // ----- runs -----

    method NextRunID() returns (id: string)
      requires Valid()
      modifies this`nextRun
      ensures Valid() && (State(), id) == StoreSpec.NextRunID(old(State()))
    {
      id := RunID(nextRun);
      nextRun := nextRun + 1;
    }

    method ReplayRun(keyHash: Hash, requestHash: Hash) returns (answer: Creation)
      requires Valid()
      ensures answer == Replay(State(), Public, keyHash, requestHash)
    {
      if keyHash !in idempotency {
        return Missing;
      }
      var previous := idempotency[keyHash];
      if previous.requestHash != requestHash {
        return Conflict;
      }
      return Granted(runs[previous.runID], true);
    }

    method ReplayRunForProject(projectID: string, keyHash: Hash, requestHash: Hash) returns (answer: Creation)
      requires Valid()
      ensures answer == Replay(State(), Project(projectID), keyHash, requestHash)
    {
      var key := TenantKey(projectID, keyHash);
      if key !in tenantIdempotency {
        return Missing;
      }
      var previous := tenantIdempotency[key];
      if previous.requestHash != requestHash {
        return Conflict;
      }
      return Granted(runs[previous.runID], true);
    }

    method CreateRun(keyHash: Hash, requestHash: Hash, bundle: RunBundle, now: int) returns (answer: Creation)
      requires Valid()
      modifies this
      ensures Valid() && (State(), answer) == StoreSpec.CreateRun(old(State()), Public, keyHash, requestHash, bundle, now)
    {
      if keyHash in idempotency {
        var previous := idempotency[keyHash];
        if previous.requestHash != requestHash {
          return Conflict;
        }
        return Granted(runs[previous.runID], true);
      }
      idempotency := idempotency[keyHash := Record(requestHash, bundle.run.id)];
      StoreBundle(bundle, now);
      InsertAligned(old(State()), Public, keyHash, requestHash, bundle, now);
      return Granted(bundle.run, false);
    }

    method CreateRunForProject(projectID: string, keyHash: Hash, requestHash: Hash, bundle: RunBundle, now: int)
      returns (answer: Creation)
      requires Valid()
      modifies this
      ensures Valid()
      ensures (State(), answer) == StoreSpec.CreateRun(old(State()), Project(projectID), keyHash, requestHash, bundle, now)
    {
      var key := TenantKey(projectID, keyHash);
      if key in tenantIdempotency {
        var previous := tenantIdempotency[key];
        if previous.requestHash != requestHash {
          return Conflict;
        }
        return Granted(runs[previous.runID], true);
      }
      projectByRun := projectByRun[bundle.run.id := projectID];
      tenantIdempotency := tenantIdempotency[key := Record(requestHash, bundle.run.id)];
      StoreBundle(bundle, now);
      InsertAligned(old(State()), Project(projectID), keyHash, requestHash, bundle, now);
      return Granted(bundle.run, false);
    }

    method StoreBundle(bundle: RunBundle, now: int)
      requires Keyed(outbox)
      modifies this`runs, this`events, this`reports, this`correlationByRun, this`outbox, this`nextOutbox
      ensures Keyed(outbox)
      ensures var id, s := bundle.run.id, old(State());
        State() == s.(runs := s.runs[id := bundle.run], events := s.events[id := bundle.events],
                      reports := s.reports[id := bundle.report],
                      correlationByRun := s.correlationByRun[id := bundle.correlationID],
                      queue := Enqueued(s.queue, RunTopic(bundle.topic), id, RunPayload(bundle), now))
    {
      hide Enqueued, RunPayload, RunTopic, Keyed;
      var id := bundle.run.id;
      runs, events, reports := runs[id := bundle.run], events[id := bundle.events], reports[id := bundle.report];
      correlationByRun := correlationByRun[id := bundle.correlationID];
      Enqueue(bundle, now);
    }

    method Enqueue(bundle: RunBundle, now: int)
      requires Keyed(outbox)
      modifies this`outbox, this`nextOutbox
      ensures Keyed(outbox)
      ensures Queue(outbox, nextOutbox)
           == Enqueued(old(Queue(outbox, nextOutbox)), RunTopic(bundle.topic), bundle.run.id, RunPayload(bundle), now)
    {
      var topic := bundle.topic;
      if topic == NoTopic {
        topic := RunPersisted;
      }
      PutOutbox(topic, bundle.run.id, Fields(bundle.run.id, bundle.verificationFault, "", ""), now);
    }

    method PutOutbox(topic: Topic, aggregateID: string, payload: Payload, now: int)
      requires Keyed(outbox)
      modifies this`outbox, this`nextOutbox
      ensures Keyed(outbox)
      ensures Queue(outbox, nextOutbox)
           == Enqueued(old(Queue(outbox, nextOutbox)), topic, aggregateID, payload, now)
    {
      var id := OutboxID(nextOutbox);
      nextOutbox := nextOutbox + 1;
      outbox := outbox[id := OutboxItem(OutboxMessage(id, topic, aggregateID, payload, 0, "", 0), now, false, false)];
    }

    // ----- outbox leases -----

    method ClaimOutbox(owner: string, lease: int, topics: seq<Topic>, now: int)
      returns (claimed: Option<OutboxMessage>)
      requires Valid()
      modifies this`outbox
      ensures Valid() && Claims(old(outbox), owner, lease, topics, now, outbox, claimed)
    {
      var ids: seq<string> := [];
      var rest := outbox.Keys;
      while rest != {}
        invariant outbox == old(outbox) && rest <= outbox.Keys
        invariant Elements(ids) == outbox.Keys - rest
        invariant AllDistinct(ids)
      {
        var id :| id in rest;
        assert forall i :: 0 <= i < |ids| ==> ids[i] in Elements(ids);
        ElementsAppend(ids, id);
        ids := ids + [id];
        rest := rest - {id};
      }
      ids := SortStrings(ids);
      assert Elements(ids) == outbox.Keys;
      for i := 0 to |ids|
        invariant outbox == old(outbox)
        invariant forall k :: 0 <= k < i ==> ids[k] in outbox && !Claimable(outbox[ids[k]], lease, topics, now)
      {
        var id := ids[i];
        assert id in Elements(ids);
        var item := outbox[id];
        if item.message.topic !in topics {
          continue;
        }
        var expired := item.message.lockedBy != "" && item.message.lockedAt + lease < now;
        if item.published || item.failed || item.availableAt > now || (item.message.lockedBy != "" && !expired) {
          continue;
        }
        forall other | other in outbox && other != id && Claimable(outbox[other], lease, topics, now)
          ensures Less(id, other)
        {
          assert other in Elements(ids);
          var k :| 0 <= k < |ids| && ids[k] == other;
        }
        item := item.(message := item.message.(lockedBy := owner, lockedAt := now, attempts := item.message.attempts + 1));
        outbox := outbox[id := item];
        return Some(item.message);
      }
      forall id | id in outbox
        ensures !Claimable(outbox[id], lease, topics, now)
      {
        assert id in Elements(ids);
        var k :| 0 <= k < |ids| && ids[k] == id;
      }
      return None;
    }

    method HeartbeatOutbox(id: string, owner: string, now: int) returns (alive: bool)
      requires Valid()
      modifies this`outbox
      ensures Valid() && (outbox, alive) == Heartbeat(old(outbox), id, owner, now)
    {
      if id !in outbox || outbox[id].published || outbox[id].failed || outbox[id].message.lockedBy != owner {
        return false;
      }
      var item := outbox[id];
      outbox := outbox[id := item.(message := item.message.(lockedAt := now))];
      return true;
    }

    method CompleteOutbox(id: string, owner: string) returns (ok: bool)
      requires Valid()
      modifies this`outbox
      ensures Valid() && (outbox, ok) == Complete(old(outbox), id, owner)
    {
      if id !in outbox || outbox[id].message.lockedBy != owner {
        return false;
      }
      var item := outbox[id].(published := true);
      outbox := outbox[id := item.(message := item.message.(lockedBy := ""))];
      return true;
    }

    method RetryOutbox(id: string, owner: string, delay: int, now: int) returns (ok: bool)
      requires Valid()
      modifies this`outbox
      ensures Valid() && (outbox, ok) == Retry(old(outbox), id, owner, delay, now)
    {
      if id !in outbox || outbox[id].message.lockedBy != owner {
        return false;
      }
      var item := outbox[id];
      item := item.(message := item.message.(lockedBy := "", lockedAt := 0), availableAt := now + delay);
      outbox := outbox[id := item];
      return true;
    }

    method FailOutbox(id: string, owner: string) returns (ok: bool)
      requires Valid()
      modifies this`outbox
      ensures Valid() && (outbox, ok) == Fail(old(outbox), id, owner)
    {
      if id !in outbox || outbox[id].message.lockedBy != owner {
        return false;
      }
      var item := outbox[id].(failed := true);
      outbox := outbox[id := item.(message := item.message.(lockedBy := ""))];
      return true;
    }

    // ----- webhooks -----

    method MarkWebhookSeen(receipt: WebhookReceipt, now: int) returns (seen: Seen)
      requires Valid()
      modifies this`webhooks, this`outbox, this`nextOutbox
      ensures Valid() && (State(), seen) == StoreSpec.MarkWebhookSeen(old(State()), receipt, now)
    {
      if receipt.eventID in webhooks {
        var previous := webhooks[receipt.eventID];
        if previous.eventType != receipt.eventType || previous.endpointTokenSHA != receipt.endpointTokenSHA
           || previous.bodySHA != receipt.bodySHA {
          return SeenConflict;
        }
        return SeenDuplicate;
      }
      webhooks := webhooks[receipt.eventID := receipt];
      PutOutbox(WebhookReceived, receipt.eventID, Fields("", Unset, receipt.eventID, receipt.eventType), now);
      return SeenNew;
    }

    /** The search over the run map; its answer does not depend on the iteration order. */
    method FindMatches(receipt: WebhookReceipt) returns (objectMatches: seq<string>, correlatedMatches: seq<string>)
      ensures Elements(objectMatches) == ObjectMatches(State(), receipt.stripeObjectID)
      ensures Elements(correlatedMatches)
           == CorrelatedMatches(State(), receipt.stripeObjectID, receipt.correlationID)
      ensures AllDistinct(correlatedMatches)
    {
      objectMatches, correlatedMatches := [], [];
      var rest := runs.Keys;
      while rest != {}
        invariant rest <= runs.Keys
        invariant forall id :: id in objectMatches <==>
          id in runs && id !in rest && runs[id].stripeObjectID == receipt.stripeObjectID
        invariant forall id :: id in correlatedMatches <==>
          id in objectMatches && Get(correlationByRun, id) == receipt.correlationID
        invariant AllDistinct(correlatedMatches)
      {
        var runID :| runID in rest;
        rest := rest - {runID};
        if runs[runID].stripeObjectID != receipt.stripeObjectID {
          continue;
        }
        assert runID !in correlatedMatches;
        objectMatches := objectMatches + [runID];
        if Get(correlationByRun, runID) == receipt.correlationID {
          ElementsAppend(correlatedMatches, runID);
          correlatedMatches := correlatedMatches + [runID];
        }
      }
    }

    /** Where a receipt belongs: ignored, unmatched for a reason, or the one run that
        carries both its object and its correlation. */
    method ClassifyReceipt(receipt: WebhookReceipt) returns (verdict: Verdict)
      ensures verdict == Classify(State(), receipt)
    {
      if !IsSupportedStripeWebhookType(receipt.eventType) {
        return Settle(Ignored, UnsupportedEventType);
      }
      if receipt.stripeObjectID == "" {
        return Settle(Unmatched, MissingStripeObjectID);
      }
      if receipt.correlationID == "" {
        return Settle(Unmatched, MissingCorrelationID);
      }
      var objectMatches, correlatedMatches := FindMatches(receipt);
      EmptyMatches(objectMatches);
      EmptyMatches(correlatedMatches);
      DistinctSize(correlatedMatches);
      if |objectMatches| == 0 {
        return Settle(Unmatched, RunNotFound);
      }
      if |correlatedMatches| == 0 {
        return Settle(Unmatched, CorrelationMismatch);
      }
      if |correlatedMatches| > 1 {
        return Settle(Unmatched, AmbiguousRunMatch);
      }
      assert Elements(correlatedMatches) == {correlatedMatches[0]};
      return Match(correlatedMatches[0]);
    }

    method ProcessStripeWebhook(eventID: string, now: int) returns (answer: Option<WebhookResult>)
      requires Valid()
      modifies this`webhookResults, this`events, this`runs, this`reports
      ensures Valid() && (State(), answer) == StoreSpec.ProcessStripeWebhook(old(State()), eventID, now)
    {
      if eventID in webhookResults {
        return Some(webhookResults[eventID].(alreadyProcessed := true));
      }
      if eventID !in webhooks {
        return None;
      }
      var receipt := webhooks[eventID];
      var result := WebhookResult(receipt.eventID, receipt.eventType, Pending, "", "", NoCode, false);
      var verdict := ClassifyReceipt(receipt);
      match verdict {
        case Settle(status, code) =>
          result := result.(status := status, code := code);
        case Match(runID) =>
          ProjectInto(receipt, runID, now);
          result := result.(status := Matched, runID := runID, projectID := Get(projectByRun, runID));
      }
      webhookResults := webhookResults[eventID := result];
      return Some(result);
    }

    method AppendEvent(receipt: WebhookReceipt, runID: string, now: int)
      requires runID in runs && runID in events
      modifies this`events, this`runs
      ensures events == old(events)[runID := old(events)[runID]
                + [BuildWebhookRunEvent(receipt, runID, NextSequence(old(events)[runID]), now)]]
      ensures runs == old(runs)[runID := old(runs)[runID].(eventCount := |events[runID]|)]
    {
      var nextSequence := FindNextSequence(events[runID]);
      var event := BuildWebhookRunEvent(receipt, runID, nextSequence, now);
      events := events[runID := events[runID] + [event]];
      runs := runs[runID := runs[runID].(eventCount := |events[runID]|)];
    }

    method ProjectInto(receipt: WebhookReceipt, runID: string, now: int)
      requires Valid() && runID in runs
      modifies this`events, this`runs, this`reports
      ensures Valid() && State() == ProjectWebhook(old(State()), receipt, runID, now)
    {
      AppendEvent(receipt, runID, now);
      var report := AddAssertion(reports[runID].(run := runs[runID]), WebhookCorrelationAssertion(receipt));
      reports := reports[runID := report];
      ProjectAligned(old(State()), receipt, runID, now);
    }

    // ----- evidence -----

    method RecordVerification(runID: string, assertion: Assertion) returns (ok: bool)
      requires Valid()
      modifies this`reports
      ensures Valid() && (State(), ok) == StoreSpec.RecordVerification(old(State()), runID, assertion)
    {
      if runID !in reports {
        return false;
      }
      var report := AddAssertion(reports[runID], assertion);
      reports := reports[runID := report];
      return true;
    }

    method ApplyReferenceMerchantEffect(effectID: string, sequence: int) returns (duplicate: bool)
      requires Valid()
      modifies this`merchantEffects
      ensures Valid() && (merchantEffects, duplicate) == ApplyEffect(old(merchantEffects), effectID, sequence)
    {
      if effectID !in merchantEffects {
        merchantEffects := merchantEffects[effectID := sequence];
        return false;
      }
      if sequence > merchantEffects[effectID] {
        merchantEffects := merchantEffects[effectID := sequence];
      }
      return true;
    }

    // ----- event pages -----

    /** The page a stream reads: the first `limit` events after the cursor, in sequence
        order, and the largest sequence in the ledger. */
    method EventsAfter(runID: string, after: int, limit: int) returns (page: Option<Page>)
      requires Valid()
      ensures page.Some? <==> runID in runs
      ensures page.Some? ==> page.value.run == runs[runID]
      ensures page.Some? && Numbered(events[runID])
        ==> page.value.highWater == |events[runID]| && page.value.events == Slice(events[runID], after, limit)
    {
      if runID !in runs {
        return None;
      }
      var batch, highWater := SelectAfter(events[runID], after, limit);
      batch := SortBySequence(batch);
      return Some(Page(runs[runID], batch, highWater));
    }
  }

  datatype Page = Page(run: Run, events: seq<Event>, highWater: int)

  /** In a ledger numbered from one, what follows the cursor, up to the page size. */
  function Slice(all: seq<Event>, after: int, limit: int): (page: seq<Event>)
    ensures |page| <= |all|
  {
    var bound := if limit <= 0 || limit > 500 then 100 else limit;
    var start := if after < 0 then 0 else if after > |all| then |all| else after;
    if start + bound < |all| then all[start..start + bound] else all[start..]
  }

  lemma SliceStep(all: seq<Event>, i: nat, after: int, limit: int)
    requires i < |all|
    ensures Slice(all[..i + 1], after, limit)
         == if i + 1 <= after || |Slice(all[..i], after, limit)| >= (if limit <= 0 || limit > 500 then 100 else limit)
            then Slice(all[..i], after, limit) else Slice(all[..i], after, limit) + [all[i]]
  {
    var bound := if limit <= 0 || limit > 500 then 100 else limit;
    var start := if after < 0 then 0 else after;
    assert all[..i + 1] == all[..i] + [all[i]];
    if start <= i {
      if start + bound < i + 1 {
        TakeSlice(all, i + 1, start, start + bound);
        TakeSlice(all, i, start, start + bound);
      } else {
        TakeSlice(all, i + 1, start, i + 1);
        TakeSlice(all, i, start, i);
        assert all[start..i + 1] == all[start..i] + [all[i]];
      }
    }
  }

  lemma TakeSlice(all: seq<Event>, n: nat, from: nat, to: nat)
    requires from <= to <= n <= |all|
    ensures all[..n][from..to] == all[from..to]
    ensures to == n ==> all[..n][from..] == all[from..to]
  {
  }

  method SelectAfter(all: seq<Event>, after: int, limit: int) returns (batch: seq<Event>, highWater: int)
    ensures Numbered(all) ==> highWater == |all| && batch == Slice(all, after, limit)
  {
    var bound := if limit <= 0 || limit > 500 then 100 else limit;
    batch, highWater := [], 0;
    for i := 0 to |all|
      invariant Numbered(all) ==> highWater == i && batch == Slice(all[..i], after, limit)
    {
      var event := all[i];
      SliceStep(all, i, after, limit);
      if event.sequence > highWater {
        highWater := event.sequence;
      }
      if event.sequence <= after || |batch| >= bound {
        continue;
      }
      batch := batch + [event];
    }
    assert all[..|all|] == all;
  }

  predicate Ascending(events: seq<Event>) {
    forall i, j :: 0 <= i < j < |events| ==> events[i].sequence <= events[j].sequence
  }

  /** Insertion from the right end, past the larger sequences. */
  function InsertBySequence(s: seq<Event>, x: Event): (r: seq<Event>)
    ensures |r| == |s| + 1
    ensures |s| == 0 || s[|s| - 1].sequence <= x.sequence ==> r == s + [x]
  {
    if s == [] || s[|s| - 1].sequence <= x.sequence then s + [x]
    else InsertBySequence(s[..|s| - 1], x) + [s[|s| - 1]]
  }

  lemma {:induction false} InsertedBag(s: seq<Event>, x: Event)
    ensures multiset(InsertBySequence(s, x)) == multiset(s) + multiset{x}
  {
    if s != [] && s[|s| - 1].sequence > x.sequence {
      var k := |s| - 1;
      assert s == s[..k] + [s[k]];
      InsertedBag(s[..k], x);
    }
  }

  /** An inserted sequence holds the new event and the old ones. */
  lemma InsertedFrom(s: seq<Event>, x: Event, bound: int)
    requires x.sequence <= bound && forall i :: 0 <= i < |s| ==> s[i].sequence <= bound
    ensures forall i :: 0 <= i < |InsertBySequence(s, x)| ==> InsertBySequence(s, x)[i].sequence <= bound
  {
    hide InsertBySequence;
    InsertedBag(s, x);
    var q := InsertBySequence(s, x);
    forall i | 0 <= i < |q|
      ensures q[i].sequence <= bound
    {
      assert q[i] in multiset(q);
      assert q[i] == x || q[i] in s;
    }
  }

  lemma {:induction false} InsertedIsAscending(s: seq<Event>, x: Event)
    requires Ascending(s)
    ensures Ascending(InsertBySequence(s, x))
  {
    if s != [] && s[|s| - 1].sequence > x.sequence {
      var k := |s| - 1;
      var t, last := s[..k], s[k];
      InsertedIsAscending(t, x);
      InsertedFrom(t, x, last.sequence);
      var q := InsertBySequence(t, x);
      assert InsertBySequence(s, x) == q + [last];
    } else if s != [] {
      assert forall i :: 0 <= i < |s| ==> s[i].sequence <= s[|s| - 1].sequence;
    }
  }

  /** sort.Slice by sequence: a sorted rearrangement, which leaves a sorted page alone. */
  method SortBySequence(events: seq<Event>) returns (sorted: seq<Event>)
    ensures multiset(sorted) == multiset(events) && Ascending(sorted)
    ensures Ascending(events) ==> sorted == events
  {
    sorted := [];
    for n := 0 to |events|
      invariant multiset(sorted) == multiset(events[..n]) && Ascending(sorted)
      invariant Ascending(events) ==> sorted == events[..n]
    {
      InsertedIsAscending(sorted, events[n]);
      InsertedBag(sorted, events[n]);
      assert events[..n + 1] == events[..n] + [events[n]];
      assert n > 0 && Ascending(events) ==> events[..n][n - 1].sequence <= events[n].sequence;
      sorted := InsertBySequence(sorted, events[n]);
    }
    assert events[..|events|] == events;
  }

  lemma EmptyMatches(names: seq<string>)
    ensures |names| == 0 <==> Elements(names) == {}
  {
    if |names| > 0 {
      assert names[0] in Elements(names);
    }
  }

  /** Append an assertion and recount, unless its identifier is taken. */
  method AddAssertion(report: Report, assertion: Assertion) returns (updated: Report)
    ensures updated == AddOnce(report, assertion)
  {
    var present := Has(report.assertions, assertion.id);
    if present {
      return report;
    }
    var assertions := report.assertions + [assertion];
    var passed := CountPassed(assertions);
    return report.(assertions := assertions, summary := Summary(true, passed, |assertions|));
  }

  method Has(assertions: seq<Assertion>, id: string) returns (found: bool)
    ensures found <==> HasAssertion(assertions, id)
  {
    for i := 0 to |assertions|
      invariant !HasAssertion(assertions[..i], id)
    {
      if assertions[i].id == id {
        return true;
      }
    }
    assert assertions[..|assertions|] == assertions;
    return false;
  }

  method FindNextSequence(ledger: seq<Event>) returns (nextSequence: int)
    ensures nextSequence == NextSequence(ledger)
  {
    nextSequence := 1;
    for i := 0 to |ledger|
      invariant nextSequence == NextSequence(ledger[..i])
    {
      assert ledger[..i + 1][..i] == ledger[..i];
      if ledger[i].sequence >= nextSequence {
        nextSequence := ledger[i].sequence + 1;
      }
    }
    assert ledger[..|ledger|] == ledger;
  }

  method CountPassed(assertions: seq<Assertion>) returns (count: nat)
    ensures count == PassedCount(assertions)
  {
    count := 0;
    for i := 0 to |assertions|
      invariant count == PassedCount(assertions[..i])
    {
      assert assertions[..i + 1][..i] == assertions[..i];
      if assertions[i].passed {
        count := count + 1;
      }
    }
    assert assertions[..|assertions|] == assertions;
  }
}
