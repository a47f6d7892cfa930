/** What creation and ingress leave in the outbox: one new job, which nobody holds and which
    can be claimed at once. */
module Queueing {
  import opened Options
  import opened Hex
  import opened Identifiers
  import opened Domain
  import opened Outbox
  import opened StoreSpec
  import opened Jobs
  import opened Consistency

  /** A job that nobody has claimed yet, and that anyone can claim at exactly the times from
      `now` on. */
  ghost predicate AvailableFrom(item: OutboxItem, now: int) {
    && item.message.attempts == 0 && item.message.lockedBy == "" && !item.published && !item.failed
    && forall lease, at :: Claimable(item, lease, JOB_TOPICS, at) <==> at >= now
  }

  /** The only job that names the run is a new one on its topic, available from `now` on. */
  ghost predicate RunQueued(t: Table, t': Table, run: Run, topic: Topic, now: int) {
    exists id :: id !in t && RunMessages(t', run.id) == {id} && id in t'
      && IsJobOf(t'[id].message, topic, run.id, Fields(run.id, run.fault, "", "")) && AvailableFrom(t'[id], now)
  }

  /** The only job that names the event is a new one, available from `now` on. */
  ghost predicate ReceiptQueued(t: Table, t': Table, r: WebhookReceipt, now: int) {
    exists id :: id !in t && WebhookMessages(t', r.eventID) == {id} && id in t'
      && IsJobOf(t'[id].message, WebhookReceived, r.eventID, Fields("", Unset, r.eventID, r.eventType))
      && AvailableFrom(t'[id], now)
  }

  predicate IsJobOf(m: OutboxMessage, topic: Topic, aggregateID: string, payload: Payload) {
    m.topic == topic && m.aggregateID == aggregateID && m.payload == payload
  }

  lemma ReadyIsAvailable(id: string, topic: Topic, aggregateID: string, payload: Payload, now: int)
    requires topic in {RunPersisted, VerificationQueued, WebhookReceived}
    ensures var item := Ready(id, topic, aggregateID, payload, now);
      IsJobOf(item.message, topic, aggregateID, payload) && AvailableFrom(item, now)
  {
    assert JOB_TOPICS[0] == RunPersisted && JOB_TOPICS[1] == VerificationQueued && JOB_TOPICS[2] == WebhookReceived;
  }

  /** A created run has one job, available from the moment of its creation. */
  lemma InsertQueues(s: Store, scope: Scope, keyHash: Hash, requestHash: Hash, b: RunBundle, now: int)
    requires MailOK(s.queue, s.runs, s.webhooks.Keys) && b.run.id !in s.runs && b.run.id != ""
    requires b.verificationFault == b.run.fault && IsRunTopic(RunTopic(b.topic))
    ensures RunQueued(s.queue.table, Insert(s, scope, keyHash, requestHash, b, now).queue.table, b.run,
                      if b.topic == NoTopic then RunPersisted else b.topic, now)
  {
    hide OutboxID, MessagesOK, OnePerRun, OnePerReceipt, RunMessages, WebhookMessages, AvailableFrom;
    var t, id := s.queue.table, OutboxID(s.queue.next);
    var topic := if b.topic == NoTopic then RunPersisted else b.topic;
    var item := Ready(id, topic, b.run.id, Fields(b.run.id, b.run.fault, "", ""), now);
    NextName(s.queue.next);
    NoJobYet(t, s.runs, s.webhooks.Keys, b.run.id);
    AddedMessages(t, id, item, b.run.id);
    ReadyIsAvailable(id, topic, b.run.id, Fields(b.run.id, b.run.fault, "", ""), now);
    assert Insert(s, scope, keyHash, requestHash, b, now).queue.table == t[id := item];
  }

  /** A new receipt has one job, available from the moment of its arrival. */
  lemma IngressQueues(s: Store, r: WebhookReceipt, now: int)
    requires MailOK(s.queue, s.runs, s.webhooks.Keys) && r.eventID !in s.webhooks && r.eventID != ""
    ensures ReceiptQueued(s.queue.table, MarkWebhookSeen(s, r, now).0.queue.table, r, now)
  {
    hide OutboxID, MessagesOK, OnePerRun, OnePerReceipt, RunMessages, WebhookMessages, AvailableFrom;
    var t, id := s.queue.table, OutboxID(s.queue.next);
    var item := Ready(id, WebhookReceived, r.eventID, Fields("", Unset, r.eventID, r.eventType), now);
    NextName(s.queue.next);
    NoJobYet(t, s.runs, s.webhooks.Keys, r.eventID);
    AddedMessages(t, id, item, r.eventID);
    ReadyIsAvailable(id, WebhookReceived, r.eventID, Fields("", Unset, r.eventID, r.eventType), now);
    assert MarkWebhookSeen(s, r, now).0.queue.table == t[id := item];
  }
}
