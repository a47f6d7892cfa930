/** The PostgreSQL outbox, statement by statement, and its simulation of the in-memory
    one. Each transaction is one atomic step; rows are named as the memory adapter names
    its messages. */
module SqlOutbox {
  import opened Options
  import opened Text
  import opened Identifiers
  import opened Domain
  import opened Outbox

  datatype Row = Row(
    topic: Topic, aggregateID: string, payload: Payload, attempts: nat,
    createdAt: int, availableAt: int, lockedAt: Option<int>, lockedBy: Option<string>,
    publishedAt: Option<int>, failedAt: Option<int>)

  type Rows = map<string, Row>

  const MILLISECOND := 1_000_000

  /** time.Duration.Milliseconds, which truncates toward zero, back as nanoseconds. */
  function InMilliseconds(d: int): int {
    if d < 0 then -((-d) / MILLISECOND * MILLISECOND) else d / MILLISECOND * MILLISECOND
  }

  predicate WholeMilliseconds(d: int) {
    d % MILLISECOND == 0
  }

  predicate Eligible(row: Row, lease: int, topics: seq<Topic>, now: int) {
    && row.publishedAt.None? && row.failedAt.None? && row.availableAt <= now
    && row.topic in topics
    && (row.lockedAt.None? || row.lockedAt.value < now - InMilliseconds(lease))
  }

  /** Older rows come first; names decide between rows of one time. */
  predicate Before(rows: Rows, a: string, b: string)
    requires a in rows && b in rows
  {
    rows[a].createdAt < rows[b].createdAt || (rows[a].createdAt == rows[b].createdAt && Less(a, b))
  }

  ghost predicate FirstEligible(rows: Rows, id: string, lease: int, topics: seq<Topic>, now: int) {
    && id in rows && Eligible(rows[id], lease, topics, now)
    && forall other :: other in rows && other != id && Eligible(rows[other], lease, topics, now)
                       ==> Before(rows, id, other)
  }

  function Inserted(topic: Topic, aggregateID: string, payload: Payload, now: int): Row {
    Row(topic, aggregateID, payload, 0, now, now, None, None, None, None)
  }

  function Locked(row: Row, owner: string, now: int): Row {
    row.(lockedAt := Some(now), lockedBy := Some(owner), attempts := row.attempts + 1)
  }

  function Message(id: string, row: Row, owner: string, now: int): OutboxMessage {
    OutboxMessage(id, row.topic, row.aggregateID, row.payload, row.attempts + 1, owner, now)
  }

  /** The row is there, this owner holds it, and it is neither published nor failed. */
  predicate Matches(rows: Rows, id: string, owner: string) {
    id in rows && rows[id].lockedBy == Some(owner) && rows[id].publishedAt.None? && rows[id].failedAt.None?
  }

  function Released(row: Row): Row {
    row.(lockedAt := None, lockedBy := None)
  }

  ghost predicate SqlStep(rows: Rows, name: string, op: Op, rows': Rows, a: Answer) {
    match op
    case PutOp(topic, agg, payload, now) =>
      a == Stored && rows' == rows[name := Inserted(topic, agg, payload, now)]
    case ClaimOp(owner, lease, topics, now) =>
      a.Claimed? &&
      (match a.message
       case None => rows' == rows && forall id :: id in rows ==> !Eligible(rows[id], lease, topics, now)
       case Some(m) =>
         && FirstEligible(rows, m.id, lease, topics, now)
         && rows' == rows[m.id := Locked(rows[m.id], owner, now)]
         && m == Message(m.id, rows[m.id], owner, now))
    case HeartbeatOp(id, owner, now) =>
      if Matches(rows, id, owner) then rows' == rows[id := rows[id].(lockedAt := Some(now))] && a == Held(true)
      else rows' == rows && a == Held(false)
    case CompleteOp(id, owner, now) =>
      if Matches(rows, id, owner) then rows' == rows[id := Released(rows[id]).(publishedAt := Some(now))] && a == Held(true)
      else rows' == rows && a == Held(false)
    case RetryOp(id, owner, delay, now) =>
      if Matches(rows, id, owner)
      then rows' == rows[id := Released(rows[id]).(availableAt := now + InMilliseconds(delay))] && a == Held(true)
      else rows' == rows && a == Held(false)
    case FailOp(id, owner, now) =>
      if Matches(rows, id, owner) then rows' == rows[id := Released(rows[id]).(failedAt := Some(now))] && a == Held(true)
      else rows' == rows && a == Held(false)
  }

  // ----- when the two adapters can be compared -----

  /** The statements take leases and delays in milliseconds. On times in nanoseconds a lease
      expires at the same instants in both adapters exactly if it is whole milliseconds. */
  lemma ExpiryAgrees(lease: int)
    ensures (forall lockedAt: int, now: int :: ExpiryTestsAgree(lease, lockedAt, now))
      <==> WholeMilliseconds(lease)
  {
    WholeIsExact(lease);
    if InMilliseconds(lease) < lease {
      assert !ExpiryTestsAgree(lease, 0, lease);
    } else if lease < InMilliseconds(lease) {
      assert !ExpiryTestsAgree(lease, 0, InMilliseconds(lease));
    }
  }

  /** Where times are whole microseconds, as the database keeps them, it is enough that less
      than a microsecond is lost. */
  lemma ExpiryAgreesInMicroseconds(lease: int)
    requires lease >= 0
    ensures (forall lockedAt: int, now: int :: ExpiryTestsAgree(lease, 1000 * lockedAt, 1000 * now))
      <==> lease % MILLISECOND < 1000
  {
    var ticks := lease / MILLISECOND * 1000;
    assert InMilliseconds(lease) == 1000 * ticks;
    if lease % MILLISECOND >= 1000 {
      assert !ExpiryTestsAgree(lease, 1000 * 0, 1000 * (ticks + 1));
    }
  }

  predicate ExpiryTestsAgree(lease: int, lockedAt: int, now: int) {
    lockedAt + lease < now <==> lockedAt < now - InMilliseconds(lease)
  }

  lemma WholeIsExact(d: int)
    ensures InMilliseconds(d) == d <==> WholeMilliseconds(d)
  {
  }

  /** A message as the memory adapter keeps it and as a row. */
  predicate Same(item: OutboxItem, row: Row) {
    && row.topic == item.message.topic && row.aggregateID == item.message.aggregateID
    && row.payload == item.message.payload && row.attempts == item.message.attempts
    && row.availableAt == item.availableAt
    && (row.publishedAt.Some? <==> item.published)
    && (row.failedAt.Some? <==> item.failed)
    && (if item.message.lockedBy == "" then row.lockedBy == None && row.lockedAt == None
        else row.lockedBy == Some(item.message.lockedBy) && row.lockedAt == Some(item.message.lockedAt))
  }

  /** Sorting by name and sorting by creation time agree. */
  ghost predicate SameOrder(rows: Rows) {
    forall a, b :: a in rows && b in rows && a != b ==> (Less(a, b) <==> Before(rows, a, b))
  }

  ghost predicate Related(q: Queue, rows: Rows) {
    Sound(q) && Paired(q.table, rows) && SameOrder(rows)
  }

  ghost predicate Paired(t: Table, rows: Rows) {
    && t.Keys == rows.Keys
    && forall id :: id in rows ==> Same(t[id], rows[id])
  }

  lemma StorePaired(t: Table, rows: Rows, id: string, item: OutboxItem, row: Row)
    requires Paired(t, rows) && Same(item, row)
    ensures Paired(t[id := item], rows[id := row])
  {
    assert t[id := item].Keys == t.Keys + {id} == rows[id := row].Keys;
  }

  /** The guards that test the owner differ in one case only: an empty owner name against
      an unlocked message, which memory takes for the holder and SQL does not. */
  lemma GuardsAgree(item: OutboxItem, row: Row, id: string, owner: string)
    requires Same(item, row) && Proper(item)
    ensures (Holds(map[id := item], id, owner) <==> Matches(map[id := row], id, owner))
      <==> !(owner == "" && item.message.lockedBy == "")
  {
  }

  /** The difference is real: with an empty name a published message can also be failed. */
  lemma EmptyOwnerFailsPublished(q: Queue, id: string)
    requires Sound(q) && id in q.table && q.table[id].published
    ensures Fail(q.table, id, "").1
    ensures Fail(q.table, id, "").0[id].published && Fail(q.table, id, "").0[id].failed
  {
  }

  predicate Comparable(op: Op) {
    && Named(op)
    && (op.ClaimOp? ==> WholeMilliseconds(op.lease))
    && (op.RetryOp? ==> WholeMilliseconds(op.delay))
  }

  lemma ClaimableIsEligible(item: OutboxItem, row: Row, lease: int, topics: seq<Topic>, now: int)
    requires Same(item, row) && WholeMilliseconds(lease)
    ensures Claimable(item, lease, topics, now) <==> Eligible(row, lease, topics, now)
  {
    WholeIsExact(lease);
  }

  lemma UpdateKeepsOrder(rows: Rows, id: string, row: Row)
    requires SameOrder(rows) && id in rows && row.createdAt == rows[id].createdAt
    ensures SameOrder(rows[id := row])
  {
    var rows' := rows[id := row];
    forall a, b | a in rows' && b in rows' && a != b
      ensures Less(a, b) <==> Before(rows', a, b)
    {
      assert Before(rows', a, b) == Before(rows, a, b);
    }
  }

  lemma UpdateRelated(q: Queue, rows: Rows, id: string, item: OutboxItem, row: Row)
    requires Related(q, rows) && id in rows && item.message.id == id && Proper(item)
    requires Same(item, row) && row.createdAt == rows[id].createdAt
    ensures Related(q.(table := q.table[id := item]), rows[id := row])
  {
    UpdateSound(q, id, item);
    UpdateKeepsOrder(rows, id, row);
    StorePaired(q.table, rows, id, item, row);
  }

  lemma NamesBelow(next: nat)
    requires next <= 999_999
    ensures forall id :: id in Names(next) ==> Less(id, OutboxID(next))
  {
    forall id | id in Names(next)
      ensures Less(id, OutboxID(next))
    {
      var n: nat :| 1 <= n < next && id == OutboxID(n);
      OutboxIDOrder(n, next);
    }
  }

  lemma AppendKeepsOrder(rows: Rows, name: string, row: Row)
    requires name !in rows
    requires SameOrder(rows)
    requires forall id :: id in rows ==> Less(id, name) && rows[id].createdAt <= row.createdAt
    ensures SameOrder(rows[name := row])
  {
    var rows' := rows[name := row];
    forall a, b | a in rows' && b in rows' && a != b
      ensures Less(a, b) <==> Before(rows', a, b)
    {
      if a == name {
        LessTotal(b, name);
      } else if b != name {
        assert Before(rows', a, b) == Before(rows, a, b);
      }
    }
  }

  lemma InsertRelated(q: Queue, rows: Rows, q': Queue, name: string, item: OutboxItem, row: Row)
    requires Related(q, rows) && Sound(q') && q'.table == q.table[name := item] && name !in rows
    requires Same(item, row)
    requires forall id :: id in rows ==> Less(id, name) && rows[id].createdAt <= row.createdAt
    ensures Related(q', rows[name := row])
  {
    AppendKeepsOrder(rows, name, row);
    StorePaired(q.table, rows, name, item, row);
  }

  lemma PutRelated(q: Queue, rows: Rows, op: Op, rows': Rows)
    requires Related(q, rows) && op.PutOp? && q.next <= 999_999
    requires forall id :: id in rows ==> rows[id].createdAt <= op.now
    requires SqlStep(rows, OutboxID(q.next), op, rows', Stored)
    ensures Related(Enqueued(q, op.topic, op.aggregateID, op.payload, op.now), rows')
  {
    PutSound(q, op.topic, op.aggregateID, op.payload, op.now);
    NamesBelow(q.next);
    var name := OutboxID(q.next);
    InsertRelated(q, rows, Enqueued(q, op.topic, op.aggregateID, op.payload, op.now), name,
                  Ready(name, op.topic, op.aggregateID, op.payload, op.now),
                  Inserted(op.topic, op.aggregateID, op.payload, op.now));
  }

  lemma ClaimRelated(q: Queue, rows: Rows, op: Op, q': Queue, a: Answer, rows': Rows, b: Answer)
    requires Related(q, rows) && op.ClaimOp? && Comparable(op)
    requires Step(q, op, q', a) && SqlStep(rows, OutboxID(q.next), op, rows', b)
    ensures a == b && Related(q', rows')
  {
    forall id | id in rows
      ensures Claimable(q.table[id], op.lease, op.topics, op.now) <==> Eligible(rows[id], op.lease, op.topics, op.now)
    {
      ClaimableIsEligible(q.table[id], rows[id], op.lease, op.topics, op.now);
    }
    if a.message.Some? && b.message.Some? {
      var x, y := a.message.value.id, b.message.value.id;
      if x != y {
        assert Less(x, y) && Before(rows, y, x);
        LessTotal(x, y);
        assert false;
      }
      UpdateRelated(q, rows, x, Leased(q.table[x], op.owner, op.now), Locked(rows[x], op.owner, op.now));
    }
  }

  /** One operation, performed by both adapters in related states, has the same answer in
      both and leaves related states. */
  lemma StepRelated(q: Queue, rows: Rows, op: Op, q': Queue, a: Answer, rows': Rows, b: Answer)
    requires Related(q, rows) && Comparable(op)
    requires op.PutOp? ==> q.next <= 999_999 && forall id :: id in rows ==> rows[id].createdAt <= op.now
    requires Step(q, op, q', a) && SqlStep(rows, OutboxID(q.next), op, rows', b)
    ensures a == b && Related(q', rows')
  {
    hide OutboxID, Claims;
    match op {
      case PutOp(topic, agg, payload, now) => PutRelated(q, rows, op, rows');
      case ClaimOp(owner, lease, topics, now) => ClaimRelated(q, rows, op, q', a, rows', b);
      case HeartbeatOp(id, owner, now) =>
        if Matches(rows, id, owner) { UpdateRelated(q, rows, id, q'.table[id], rows'[id]); }
      case CompleteOp(id, owner, now) =>
        if Matches(rows, id, owner) { UpdateRelated(q, rows, id, q'.table[id], rows'[id]); }
      case RetryOp(id, owner, delay, now) =>
        WholeIsExact(delay);
        if Matches(rows, id, owner) { UpdateRelated(q, rows, id, q'.table[id], rows'[id]); }
      case FailOp(id, owner, now) =>
        if Matches(rows, id, owner) { UpdateRelated(q, rows, id, q'.table[id], rows'[id]); }
    }
  }

  // ----- whole runs -----

  ghost predicate SqlStepAt(qs: seq<Queue>, states: seq<Rows>, ops: seq<Op>, answers: seq<Answer>, i: nat)
    requires |qs| == |states| == |ops| + 1 && |answers| == |ops| && i < |ops|
  {
    SqlStep(states[i], OutboxID(qs[i].next), ops[i], states[i + 1], answers[i])
  }

  ghost predicate SqlTrace(qs: seq<Queue>, states: seq<Rows>, ops: seq<Op>, answers: seq<Answer>) {
    && |qs| == |states| == |ops| + 1 && |answers| == |ops|
    && forall i: nat :: i < |ops| ==> SqlStepAt(qs, states, ops, answers, i)
  }

  predicate PutsInOrder(ops: seq<Op>) {
    forall i, j :: 0 <= i < j < |ops| && ops[i].PutOp? && ops[j].PutOp? ==> ops[i].now <= ops[j].now
  }

  /** Every row was inserted by one of the first i operations. */
  ghost predicate AllInserted(rows: Rows, ops: seq<Op>, i: nat)
    requires i <= |ops|
  {
    forall id :: id in rows ==> exists k :: 0 <= k < i && ops[k].PutOp? && ops[k].now == rows[id].createdAt
  }

  lemma {:induction false} CounterGrows(qs: seq<Queue>, ops: seq<Op>, answers: seq<Answer>, i: nat, j: nat)
    requires Trace(qs, ops, answers) && i <= j <= |ops|
    ensures qs[i].next <= qs[j].next
  {
    if i < j {
      CounterGrows(qs, ops, answers, i, j - 1);
      assert StepAt(qs, ops, answers, j - 1);
    }
  }

  lemma InsertedStep(rows: Rows, name: string, ops: seq<Op>, i: nat, rows': Rows, b: Answer)
    requires i < |ops| && AllInserted(rows, ops, i) && SqlStep(rows, name, ops[i], rows', b)
    ensures AllInserted(rows', ops, i + 1)
  {
    forall id | id in rows'
      ensures exists k :: 0 <= k < i + 1 && ops[k].PutOp? && ops[k].now == rows'[id].createdAt
    {
      if ops[i].PutOp? && id == name {
        assert ops[i].now == rows'[id].createdAt;
      } else {
        assert rows'[id].createdAt == rows[id].createdAt;
      }
    }
  }

  lemma SimulationStep(q: Queue, rows: Rows, ops: seq<Op>, k: nat, q': Queue, a: Answer, rows': Rows, b: Answer)
    requires k < |ops| && Related(q, rows) && AllInserted(rows, ops, k)
    requires Comparable(ops[k]) && PutsInOrder(ops) && q'.next <= 1_000_000
    requires Step(q, ops[k], q', a) && SqlStep(rows, OutboxID(q.next), ops[k], rows', b)
    ensures a == b && Related(q', rows')
  {
    if ops[k].PutOp? {
      forall id | id in rows
        ensures rows[id].createdAt <= ops[k].now
      {
        var m :| 0 <= m < k && ops[m].PutOp? && ops[m].now == rows[id].createdAt;
      }
    }
    StepRelated(q, rows, ops[k], q', a, rows', b);
  }

  /** Memory and SQL give the same answers to every sequence of operations, however workers
      interleave, for non-empty owners, leases and delays in whole milliseconds, insertions at
      times that do not go back, and at most 999999 messages. */
  lemma {:induction false} Simulation(qs: seq<Queue>, ops: seq<Op>, answers: seq<Answer>,
                                      states: seq<Rows>, sqlAnswers: seq<Answer>, i: nat)
    requires Trace(qs, ops, answers) && SqlTrace(qs, states, ops, sqlAnswers)
    requires qs[0] == Queue(map[], 1) && states[0] == map[]
    requires forall k :: 0 <= k < |ops| ==> Comparable(ops[k])
    requires PutsInOrder(ops) && qs[|ops|].next <= 1_000_000
    requires i <= |ops|
    ensures Related(qs[i], states[i]) && AllInserted(states[i], ops, i)
    ensures forall k :: 0 <= k < i ==> answers[k] == sqlAnswers[k]
  {
    if i == 0 {
      assert Names(1) == {};
    } else {
      var k := i - 1;
      Simulation(qs, ops, answers, states, sqlAnswers, k);
      CounterGrows(qs, ops, answers, i, |ops|);
      assert StepAt(qs, ops, answers, k) && SqlStepAt(qs, states, ops, sqlAnswers, k);
      SimulationStep(qs[k], states[k], ops, k, qs[i], answers[k], states[i], sqlAnswers[k]);
      InsertedStep(states[k], OutboxID(qs[k].next), ops, k, states[i], sqlAnswers[k]);
    }
  }
}
