/** The in-memory outbox as a transition system on tables: lease rules, claim order,
    and what holds along every sequence of operations. */
module Outbox {
  import opened Options
  import opened Text
  import opened Identifiers
  import opened Domain

  /** A decoded job payload; a field that the JSON text lacks reads as empty. */
  datatype Payload =
    | Malformed
    | Fields(runID: string, verificationFault: Fault, stripeEventID: string, eventType: string)

  datatype OutboxMessage = OutboxMessage(
    id: string, topic: Topic, aggregateID: string, payload: Payload,
    attempts: nat, lockedBy: string, lockedAt: int)

  datatype OutboxItem = OutboxItem(message: OutboxMessage, availableAt: int, published: bool, failed: bool)

  type Table = map<string, OutboxItem>

  /** Every item carries its own key. */
  predicate Keyed(t: Table) {
    forall id :: id in t ==> t[id].message.id == id
  }

  // ----- operations -----

  /** A new message, available at once and not locked. */
  function Ready(id: string, topic: Topic, aggregateID: string, payload: Payload, now: int): OutboxItem {
    OutboxItem(OutboxMessage(id, topic, aggregateID, payload, 0, "", 0), now, false, false)
  }

  predicate Expired(item: OutboxItem, lease: int, now: int) {
    item.message.lockedBy != "" && item.message.lockedAt + lease < now
  }

  predicate Claimable(item: OutboxItem, lease: int, topics: seq<Topic>, now: int) {
    && item.message.topic in topics
    && !item.published && !item.failed && item.availableAt <= now
    && (item.message.lockedBy == "" || Expired(item, lease, now))
  }

  function Leased(item: OutboxItem, owner: string, now: int): OutboxItem {
    item.(message := item.message.(lockedBy := owner, lockedAt := now, attempts := item.message.attempts + 1))
  }

  ghost predicate FirstClaimable(t: Table, id: string, lease: int, topics: seq<Topic>, now: int) {
    && id in t && Claimable(t[id], lease, topics, now)
    && forall other :: other in t && other != id && Claimable(t[other], lease, topics, now) ==> Less(id, other)
  }

  /** What a claim may answer, and the table it leaves. */
  ghost predicate Claims(t: Table, owner: string, lease: int, topics: seq<Topic>, now: int,
                         t': Table, claimed: Option<OutboxMessage>)
  {
    match claimed
    case None => t' == t && forall id :: id in t ==> !Claimable(t[id], lease, topics, now)
    case Some(m) =>
      && FirstClaimable(t, m.id, lease, topics, now)
      && t' == t[m.id := Leased(t[m.id], owner, now)]
      && m == t'[m.id].message
  }

  function Heartbeat(t: Table, id: string, owner: string, now: int): (Table, bool) {
    if id !in t || t[id].published || t[id].failed || t[id].message.lockedBy != owner then (t, false)
    else (t[id := t[id].(message := t[id].message.(lockedAt := now))], true)
  }

  predicate Holds(t: Table, id: string, owner: string) {
    id in t && t[id].message.lockedBy == owner
  }

  function Unlocked(item: OutboxItem): OutboxItem {
    item.(message := item.message.(lockedBy := ""))
  }

  function Complete(t: Table, id: string, owner: string): (Table, bool) {
    if !Holds(t, id, owner) then (t, false) else (t[id := Unlocked(t[id]).(published := true)], true)
  }

  function Retry(t: Table, id: string, owner: string, delay: int, now: int): (Table, bool) {
    if !Holds(t, id, owner) then (t, false)
    else
      var freed := Unlocked(t[id]);
      (t[id := freed.(message := freed.message.(lockedAt := 0), availableAt := now + delay)], true)
  }

  function Fail(t: Table, id: string, owner: string): (Table, bool) {
    if !Holds(t, id, owner) then (t, false) else (t[id := Unlocked(t[id]).(failed := true)], true)
  }

  /** A claim has one answer: the order on names is total. */
  lemma ClaimDeterministic(t: Table, owner: string, lease: int, topics: seq<Topic>, now: int,
                           t1: Table, r1: Option<OutboxMessage>, t2: Table, r2: Option<OutboxMessage>)
    requires Claims(t, owner, lease, topics, now, t1, r1)
    requires Claims(t, owner, lease, topics, now, t2, r2)
    ensures t1 == t2 && r1 == r2
  {
    if r1.Some? && r2.Some? {
      LessTotal(r1.value.id, r2.value.id);
    }
  }

  // ----- runs -----

  datatype Queue = Queue(table: Table, next: nat)

  datatype Op =
    | PutOp(topic: Topic, aggregateID: string, payload: Payload, now: int)
    | ClaimOp(owner: string, lease: int, topics: seq<Topic>, now: int)
    | HeartbeatOp(id: string, owner: string, now: int)
    | CompleteOp(id: string, owner: string, now: int)
    | RetryOp(id: string, owner: string, delay: int, now: int)
    | FailOp(id: string, owner: string, now: int)

  datatype Answer = Stored | Claimed(message: Option<OutboxMessage>) | Held(bool)

  function Enqueued(q: Queue, topic: Topic, aggregateID: string, payload: Payload, now: int): Queue {
    var id := OutboxID(q.next);
    Queue(q.table[id := Ready(id, topic, aggregateID, payload, now)], q.next + 1)
  }

  ghost predicate Step(q: Queue, op: Op, q': Queue, a: Answer) {
    match op
    case PutOp(topic, agg, payload, now) =>
      a == Stored && q' == Enqueued(q, topic, agg, payload, now)
    case ClaimOp(owner, lease, topics, now) =>
      a.Claimed? && q'.next == q.next && Claims(q.table, owner, lease, topics, now, q'.table, a.message)
    case HeartbeatOp(id, owner, now) =>
      var (t, ok) := Heartbeat(q.table, id, owner, now); q' == q.(table := t) && a == Held(ok)
    case CompleteOp(id, owner, now) =>
      var (t, ok) := Complete(q.table, id, owner); q' == q.(table := t) && a == Held(ok)
    case RetryOp(id, owner, delay, now) =>
      var (t, ok) := Retry(q.table, id, owner, delay, now); q' == q.(table := t) && a == Held(ok)
    case FailOp(id, owner, now) =>
      var (t, ok) := Fail(q.table, id, owner); q' == q.(table := t) && a == Held(ok)
  }

  ghost predicate StepAt(qs: seq<Queue>, ops: seq<Op>, answers: seq<Answer>, i: nat)
    requires |qs| == |ops| + 1 && |answers| == |ops| && i < |ops|
  {
    Step(qs[i], ops[i], qs[i + 1], answers[i])
  }

  ghost predicate Trace(qs: seq<Queue>, ops: seq<Op>, answers: seq<Answer>) {
    && |qs| == |ops| + 1 && |answers| == |ops|
    && forall i: nat :: i < |ops| ==> StepAt(qs, ops, answers, i)
  }

  predicate Named(op: Op) {
    op.PutOp? || op.owner != ""
  }

  predicate AllNamed(ops: seq<Op>) {
    forall i :: 0 <= i < |ops| ==> Named(ops[i])
  }

  predicate Settled(item: OutboxItem) {
    item.published || item.failed
  }

  /** The names that a counter has handed out. */
  ghost function Names(next: nat): set<string> {
    set n: nat | 1 <= n < next :: OutboxID(n)
  }

  lemma NextName(next: nat)
    requires next >= 1
    ensures OutboxID(next) !in Names(next)
    ensures Names(next + 1) == Names(next) + {OutboxID(next)}
  {
    forall n: nat | 1 <= n < next
      ensures OutboxID(n) != OutboxID(next)
    {
      OutboxIDInjective(n, next);
    }
  }

  /** An unsettled message may be locked; a settled one is not, and settled one way only. */
  predicate Proper(item: OutboxItem) {
    && (Settled(item) ==> item.message.lockedBy == "")
    && !(item.published && item.failed)
  }

  /** The names in use are outbox_000001 up to the counter, each stored under its own key. */
  ghost predicate Sound(q: Queue) {
    && q.next >= 1
    && q.table.Keys == Names(q.next)
    && Keyed(q.table)
    && forall id :: id in q.table ==> Proper(q.table[id])
  }

  lemma UpdateSound(q: Queue, id: string, item: OutboxItem)
    requires Sound(q) && id in q.table && item.message.id == id && Proper(item)
    ensures Sound(q.(table := q.table[id := item]))
  {
    var t := q.table[id := item];
    assert t.Keys == q.table.Keys;
  }

  lemma PutSound(q: Queue, topic: Topic, aggregateID: string, payload: Payload, now: int)
    requires Sound(q)
    ensures OutboxID(q.next) !in q.table
    ensures Sound(Enqueued(q, topic, aggregateID, payload, now))
  {
    NextName(q.next);
    var id := OutboxID(q.next);
    var t := q.table[id := Ready(id, topic, aggregateID, payload, now)];
    assert t.Keys == q.table.Keys + {id};
    assert Proper(t[id]);
  }

  /** Each operation keeps the table sound, drops no message and leaves settled ones alone. */
  lemma StepSound(q: Queue, op: Op, q': Queue, a: Answer)
    requires Sound(q) && Step(q, op, q', a) && Named(op)
    ensures Sound(q')
    ensures q.table.Keys <= q'.table.Keys
    ensures forall id :: id in q.table && Settled(q.table[id]) ==> q'.table[id] == q.table[id]
  {
    match op {
      case PutOp(topic, agg, payload, now) => PutSound(q, topic, agg, payload, now);
      case ClaimOp(owner, lease, topics, now) =>
        if a.message.Some? {
          var id := a.message.value.id;
          UpdateSound(q, id, Leased(q.table[id], owner, now));
        }
      case HeartbeatOp(id, owner, now) => if q' != q { UpdateSound(q, id, q'.table[id]); }
      case CompleteOp(id, owner, now) => if q' != q { UpdateSound(q, id, q'.table[id]); }
      case RetryOp(id, owner, delay, now) => if q' != q { UpdateSound(q, id, q'.table[id]); }
      case FailOp(id, owner, now) => if q' != q { UpdateSound(q, id, q'.table[id]); }
    }
  }

  lemma {:induction false} RunSound(qs: seq<Queue>, ops: seq<Op>, answers: seq<Answer>, i: nat)
    requires Trace(qs, ops, answers) && AllNamed(ops) && Sound(qs[0]) && i <= |ops|
    ensures Sound(qs[i])
  {
    if i > 0 {
      RunSound(qs, ops, answers, i - 1);
      assert StepAt(qs, ops, answers, i - 1);
      StepSound(qs[i - 1], ops[i - 1], qs[i], answers[i - 1]);
    }
  }

  /** Published and failed exclude each other and are absorbing along every run. */
  lemma {:induction false} SettledForever(
    qs: seq<Queue>, ops: seq<Op>, answers: seq<Answer>, i: nat, j: nat, id: string)
    requires Trace(qs, ops, answers) && AllNamed(ops) && Sound(qs[0])
    requires i <= j <= |ops| && id in qs[i].table && Settled(qs[i].table[id])
    ensures id in qs[j].table && qs[j].table[id] == qs[i].table[id]
    ensures !(qs[j].table[id].published && qs[j].table[id].failed)
  {
    hide Step, Names, Keyed;
    RunSound(qs, ops, answers, j);
    if i < j {
      SettledForever(qs, ops, answers, i, j - 1, id);
      RunSound(qs, ops, answers, j - 1);
      assert StepAt(qs, ops, answers, j - 1);
      StepSettled(qs[j - 1], ops[j - 1], qs[j], answers[j - 1], id);
    }
  }

  lemma StepSettled(q: Queue, op: Op, q': Queue, a: Answer, id: string)
    requires Sound(q) && Step(q, op, q', a) && Named(op)
    requires id in q.table && Settled(q.table[id])
    ensures id in q'.table && q'.table[id] == q.table[id]
  {
    StepSound(q, op, q', a);
  }

  /** An operation that only the lease holder of `id` may perform. */
  predicate Guarded(op: Op, id: string, owner: string) {
    (op.HeartbeatOp? || op.CompleteOp? || op.RetryOp? || op.FailOp?) && op.id == id && op.owner == owner
  }

  predicate ClaimedBy(op: Op, a: Answer, id: string, owner: string) {
    op.ClaimOp? && op.owner == owner && a.Claimed? && a.message.Some? && a.message.value.id == id
  }

  lemma StepStaysOut(q: Queue, op: Op, q': Queue, a: Answer, id: string, owner: string)
    requires Sound(q) && Step(q, op, q', a) && Named(op) && owner != ""
    requires id in q.table && q.table[id].message.lockedBy != owner && !ClaimedBy(op, a, id, owner)
    ensures id in q'.table && q'.table[id].message.lockedBy != owner
  {
    StepSound(q, op, q', a);
    if op.PutOp? {
      PutSound(q, op.topic, op.aggregateID, op.payload, op.now);
    }
  }

  lemma {:induction false} StaysOut(qs: seq<Queue>, ops: seq<Op>, answers: seq<Answer>,
                                    i: nat, j: nat, id: string, owner: string)
    requires Trace(qs, ops, answers) && AllNamed(ops) && Sound(qs[0]) && owner != ""
    requires i <= j <= |ops| && id in qs[i].table && qs[i].table[id].message.lockedBy != owner
    requires forall k :: i <= k < j ==> !ClaimedBy(ops[k], answers[k], id, owner)
    ensures id in qs[j].table && qs[j].table[id].message.lockedBy != owner
  {
    if i < j {
      StaysOut(qs, ops, answers, i, j - 1, id, owner);
      RunSound(qs, ops, answers, j - 1);
      assert StepAt(qs, ops, answers, j - 1);
      StepStaysOut(qs[j - 1], ops[j - 1], qs[j], answers[j - 1], id, owner);
    }
  }

  /** Fencing: once a worker has lost a message, and until it claims that message again,
      each of its heartbeats, completions, retries and failures is refused and changes
      nothing, whatever everyone else does in between. */
  lemma Fencing(qs: seq<Queue>, ops: seq<Op>, answers: seq<Answer>,
                i: nat, j: nat, id: string, owner: string)
    requires Trace(qs, ops, answers) && AllNamed(ops) && Sound(qs[0]) && owner != ""
    requires i <= j < |ops| && id in qs[i].table && qs[i].table[id].message.lockedBy != owner
    requires forall k :: i <= k < j ==> !ClaimedBy(ops[k], answers[k], id, owner)
    requires Guarded(ops[j], id, owner)
    ensures answers[j] == Held(false) && qs[j + 1] == qs[j]
  {
    StaysOut(qs, ops, answers, i, j, id, owner);
    assert StepAt(qs, ops, answers, j);
  }

  lemma StepLeavesUnlocked(q: Queue, op: Op, q': Queue, a: Answer, id: string)
    requires Sound(q) && Step(q, op, q', a) && Named(op)
    requires id in q.table && q.table[id].message.lockedBy == "" && !(op.ClaimOp? && ClaimedBy(op, a, id, op.owner))
    ensures id in q'.table && q'.table[id] == q.table[id]
  {
    StepSound(q, op, q', a);
    if op.PutOp? {
      PutSound(q, op.topic, op.aggregateID, op.payload, op.now);
    }
  }

  /** Operation k claims a message. */
  predicate ClaimsAt(ops: seq<Op>, answers: seq<Answer>, k: int, id: string)
    requires 0 <= k < |ops| == |answers|
  {
    ops[k].ClaimOp? && ClaimedBy(ops[k], answers[k], id, ops[k].owner)
  }

  /** A message that nobody holds changes only by being claimed. */
  lemma {:induction false} UnlockedStays(qs: seq<Queue>, ops: seq<Op>, answers: seq<Answer>, i: nat, j: nat, id: string)
    requires Trace(qs, ops, answers) && AllNamed(ops) && Sound(qs[0])
    requires i <= j <= |ops| && id in qs[i].table && qs[i].table[id].message.lockedBy == ""
    requires forall k :: i <= k < j ==> !ClaimsAt(ops, answers, k, id)
    ensures id in qs[j].table && qs[j].table[id] == qs[i].table[id]
  {
    if i < j {
      UnlockedStays(qs, ops, answers, i, j - 1, id);
      RunSound(qs, ops, answers, j - 1);
      assert StepAt(qs, ops, answers, j - 1) && !ClaimsAt(ops, answers, j - 1, id);
      StepLeavesUnlocked(qs[j - 1], ops[j - 1], qs[j], answers[j - 1], id);
    }
  }

  /** Retry delays are honoured: the next claim of a message that was sent back comes no
      earlier than its delay says, whatever happens in between. */
  lemma RetryDelayHonoured(qs: seq<Queue>, ops: seq<Op>, answers: seq<Answer>, j: nat, k: nat, id: string)
    requires Trace(qs, ops, answers) && AllNamed(ops) && Sound(qs[0]) && j < k < |ops|
    requires ops[j].RetryOp? && ops[j].id == id && answers[j] == Held(true)
    requires ClaimsAt(ops, answers, k, id) && forall i :: j < i < k ==> !ClaimsAt(ops, answers, i, id)
    ensures ops[k].now >= ops[j].now + ops[j].delay
  {
    hide Sound, OutboxID;
    assert StepAt(qs, ops, answers, j) && StepAt(qs, ops, answers, k);
    UnlockedStays(qs, ops, answers, j + 1, k, id);
  }

  /** A takeover is what fencing needs to start: after a claim the message is locked by the
      claimer, so a former holder is shut out exactly when its name is a different one. */
  lemma TakeoverShutsOut(t: Table, id: string, former: string, claimer: string, lease: int,
                         topics: seq<Topic>, now: int, t': Table, m: OutboxMessage)
    requires Keyed(t) && claimer != ""
    requires Claims(t, claimer, lease, topics, now, t', Some(m)) && m.id == id
    ensures (!Heartbeat(t', id, former, now).1 && !Complete(t', id, former).1
             && !Retry(t', id, former, 0, now).1 && !Fail(t', id, former).1) <==> former != claimer
  {
  }

  /** Claims are first-in-first-out among the messages that can be claimed, while the
      counter has not passed 999999. */
  lemma ClaimsFifo(q: Queue, owner: string, lease: int, topics: seq<Topic>, now: int,
                   t': Table, m: OutboxMessage, n: nat, older: nat)
    requires Sound(q) && q.next <= 1_000_000
    requires Claims(q.table, owner, lease, topics, now, t', Some(m))
    requires m.id == OutboxID(n) && 1 <= n < q.next && 1 <= older < n
    ensures !Claimable(q.table[OutboxID(older)], lease, topics, now)
  {
    OutboxIDOrder(older, n);
    LessTotal(OutboxID(older), OutboxID(n));
    OutboxIDInjective(older, n);
  }
}
