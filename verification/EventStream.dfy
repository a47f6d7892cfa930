/** The resumable event stream: one connection as the handler serves it, and what a client
    receives over any number of connections. A connection may be cut after any frame, the
    ledger may grow before every read, and reads may fail. */
module EventStream {
  import opened Options
  import opened Text
  import opened Identifiers
  import opened Domain
  import Paging = MemoryRepository

  const BATCH_SIZE := 100

  // ----- frames -----

  datatype Frame = Retry | RunEvent(event: Event) | RunComplete | StreamError | Heartbeat

  /** The response writer: it takes frames until the connection is cut. */
  class Wire {
    var frames: seq<Frame>
    var room: nat

    constructor (room: nat)
      ensures frames == [] && this.room == room
    {
      frames, this.room := [], room;
    }

    method Write(frame: Frame) returns (ok: bool)
      modifies this
      ensures ok == (old(room) > 0)
      ensures if ok then frames == old(frames) + [frame] && room == old(room) - 1
              else frames == old(frames) && room == old(room)
    {
      ok := room > 0;
      if ok {
        frames := frames + [frame];
        room := room - 1;
      }
    }

    method Flush() returns (ok: bool)
      ensures ok == (room > 0)
    {
      ok := room > 0;
    }
  }

  /** The events that a client reads off a stream of frames. */
  function Carried(frames: seq<Frame>): seq<Event> {
    if frames == [] then []
    else
      var f := frames[|frames| - 1];
      Carried(frames[..|frames| - 1]) + if f.RunEvent? then [f.event] else []
  }

  /** And their ids. */
  function IDs(frames: seq<Frame>): (ids: seq<int>)
    ensures |ids| == |Carried(frames)|
  {
    Sequences(Carried(frames))
  }

  function Sequences(events: seq<Event>): (ids: seq<int>)
    ensures |ids| == |events|
  {
    seq(|events|, i requires 0 <= i < |events| => events[i].sequence)
  }

  /** a+1, a+2, ..., b */
  function Range(a: int, b: int): (r: seq<int>)
    requires a <= b
    ensures |r| == b - a
  {
    seq(b - a, i => a + 1 + i)
  }

  lemma CarriedSnoc(frames: seq<Frame>, f: Frame)
    ensures Carried(frames + [f]) == Carried(frames) + if f.RunEvent? then [f.event] else []
  {
    assert (frames + [f])[..|frames|] == frames;
  }

  lemma SliceIDs(ledger: seq<Event>, a: int, b: int)
    requires Numbered(ledger) && 0 <= a <= b <= |ledger|
    ensures Sequences(ledger[a..b]) == Range(a, b)
  {
  }

  function CompleteCount(frames: seq<Frame>): nat {
    multiset(frames)[RunComplete]
  }

  function HeartbeatCount(frames: seq<Frame>): nat {
    multiset(frames)[Heartbeat]
  }

  /** Every completion comes after exactly the events up to `end`. */
  predicate CompletesAfter(frames: seq<Frame>, cursor: int, end: int) {
    forall p :: 0 <= p < |frames| && frames[p].RunComplete? ==> cursor <= end && IDs(frames[..p]) == Range(cursor, end)
  }

  lemma CompletesSnoc(frames: seq<Frame>, f: Frame, cursor: int, end: int)
    requires CompletesAfter(frames, cursor, end)
    requires f.RunComplete? ==> cursor <= end && IDs(frames) == Range(cursor, end)
    ensures CompletesAfter(frames + [f], cursor, end)
  {
    hide IDs;
    var all := frames + [f];
    forall p | 0 <= p < |all| && all[p].RunComplete?
      ensures cursor <= end && IDs(all[..p]) == Range(cursor, end)
    {
      if p < |frames| {
        assert all[..p] == frames[..p] && all[p] == frames[p];
      } else {
        assert all[..p] == frames;
      }
    }
  }

  // ----- the header -----

  /** No value and zero both mean the beginning; otherwise exactly one canonical decimal of at
      most 31 bits is read, as its value. */
  method ParseLastEventID(values: seq<string>) returns (cursor: Option<int>)
    ensures values == [] ==> cursor == Some(0)
    ensures values != [] ==> (cursor.Some? <==> |values| == 1 && Canonical(values[0]) && Value(values[0]) <= INT32_MAX)
    ensures values != [] && cursor.Some? ==> cursor.value == Value(values[0]) && values[0] == Itoa(cursor.value)
  {
    if |values| == 0 {
      return Some(0);
    }
    if |values| != 1 {
      return None;
    }
    var value := values[0];
    if value == "" || (|value| > 1 && value[0] == '0') {
      return None;
    }
    for i := 0 to |value|
      invariant forall k :: 0 <= k < i ==> IsDigit(value[k])
    {
      if value[i] < '0' || value[i] > '9' {
        return None;
      }
    }
    CanonicalIsItoa(value);
    return ParseInt(value, INT32_MAX);
  }

  /** What a client sends after it last received an id. */
  function LastEventID(last: nat): seq<string> {
    if last == 0 then [] else [Itoa(last)]
  }

  // ----- reading -----

  /** One read of the run, at its moment. */
  datatype Read = Failed | Absent | Page(run: Run, ledger: seq<Event>)

  predicate Readable(views: seq<Read>, i: int) {
    0 <= i < |views| && views[i].Page?
  }

  /** Ledgers are numbered from one and only grow. */
  predicate Growing(views: seq<Read>) {
    && (forall i :: 0 <= i < |views| && views[i].Page? ==> Numbered(views[i].ledger))
    && (forall i, j :: 0 <= i <= j < |views| && views[i].Page? && views[j].Page? ==> views[i].ledger <= views[j].ledger)
  }

  /** A page continues right after the cursor; a short page ends with the ledger. */
  lemma PageContinues(ledger: seq<Event>, cursor: int)
    requires Numbered(ledger) && 0 <= cursor <= |ledger|
    ensures var page := Paging.Slice(ledger, cursor, BATCH_SIZE);
      && cursor + |page| <= |ledger| && page == ledger[cursor..cursor + |page|] && Continues(page, cursor)
      && |page| <= BATCH_SIZE && (|page| < BATCH_SIZE ==> cursor + |page| == |ledger|)
  {
  }

  predicate Continues(batch: seq<Event>, cursor: int) {
    forall i :: 0 <= i < |batch| ==> batch[i].sequence == cursor + 1 + i
  }

  function Framed(events: seq<Event>): (frames: seq<Frame>)
    ensures |frames| == |events|
  {
    seq(|events|, i requires 0 <= i < |events| => RunEvent(events[i]))
  }

  /** Send a batch until the connection is cut: the frames carry its events in order, with no
      gap and no repeat. */
  method WriteEventBatch(wire: Wire, batch: seq<Event>, after: int) returns (last: int, ok: bool)
    requires Continues(batch, after)
    modifies wire
    ensures after <= last <= after + |batch|
    ensures ok <==> last == after + |batch|
    ensures wire.frames == old(wire.frames) + Framed(batch[..last - after])
    ensures wire.room == old(wire.room) - (last - after)
    ensures !ok ==> wire.room == 0
  {
    last := after;
    ghost var before := wire.frames;
    for i := 0 to |batch|
      invariant last == after + i
      invariant wire.frames == before + Framed(batch[..i]) && wire.room == old(wire.room) - i
    {
      var event := batch[i];
      if event.sequence <= last {
        continue;
      }
      var written := wire.Write(RunEvent(event));
      if !written {
        return last, false;
      }
      assert Framed(batch[..i + 1]) == Framed(batch[..i]) + [RunEvent(event)];
      last := event.sequence;
    }
    assert batch[..|batch|] == batch;
    return last, true;
  }

  datatype Reply = BadHeader | Unavailable | NotFound | Ahead | Streamed

  datatype Tick = PollTick | HeartbeatTick

  // ----- what has been sent -----

  /** How far a stream has come: it started after `cursor` and has sent the events up to
      `last`; whether it has sent the completion, and at which event that was; how many
      heartbeats; and whether it ended with an error frame. */
  datatype Progress = Progress(cursor: int, last: int, complete: bool, end: int, beats: nat, failed: bool)

  /** The frames are those of a ledger's events from the cursor to `last`, at most one
      completion, which came when everything up to `end` had been sent, and heartbeats. */
  ghost predicate Sent(frames: seq<Frame>, ledger: seq<Event>, p: Progress) {
    && Numbered(ledger) && 0 <= p.cursor <= p.last <= |ledger|
    && Carried(frames) == ledger[p.cursor..p.last]
    && CompleteCount(frames) == (if p.complete then 1 else 0)
    && CompletesAfter(frames, p.cursor, p.end)
    && HeartbeatCount(frames) == p.beats
    && (StreamError in frames <==> p.failed)
  }

  /** A stream after one frame more that is not an event. */
  function After(p: Progress, f: Frame): Progress {
    match f
    case RunComplete => p.(complete := true)
    case Heartbeat => p.(beats := p.beats + 1)
    case StreamError => p.(failed := true)
    case _ => p
  }

  lemma SentMore(frames: seq<Frame>, ledger: seq<Event>, p: Progress, f: Frame)
    requires Sent(frames, ledger, p) && !f.RunEvent?
    requires f.RunComplete? ==> !p.complete && p.end == p.last
    ensures Sent(frames + [f], ledger, After(p, f))
  {
    hide Carried;
    CarriedSnoc(frames, f);
    SliceIDs(ledger, p.cursor, p.last);
    CompletesSnoc(frames, f, p.cursor, p.end);
  }

  lemma LastOf(frames: seq<Frame>, ledger: seq<Event>, p: Progress)
    requires Sent(frames, ledger, p)
    ensures Numbered(ledger) && 0 <= p.cursor <= p.last <= |ledger|
  {
  }

  lemma SentEvent(frames: seq<Frame>, ledger: seq<Event>, p: Progress)
    requires Sent(frames, ledger, p) && p.last < |ledger|
    ensures Sent(frames + [RunEvent(ledger[p.last])], ledger, p.(last := p.last + 1))
  {
    hide Carried;
    var f := RunEvent(ledger[p.last]);
    CarriedSnoc(frames, f);
    CompletesSnoc(frames, f, p.cursor, p.end);
    assert ledger[p.cursor..p.last + 1] == ledger[p.cursor..p.last] + [ledger[p.last]];
  }

  lemma {:induction false} SentEvents(frames: seq<Frame>, ledger: seq<Event>, p: Progress, next: int)
    requires Sent(frames, ledger, p) && p.last <= next <= |ledger|
    ensures Sent(frames + Framed(ledger[p.last..next]), ledger, p.(last := next))
    decreases next - p.last
  {
    hide Sent;
    LastOf(frames, ledger, p);
    if p.last == next {
      assert frames + Framed(ledger[next..next]) == frames;
    } else {
      var sent := frames + Framed(ledger[p.last..next - 1]);
      SentEvents(frames, ledger, p, next - 1);
      SentEvent(sent, ledger, p.(last := next - 1));
      assert frames + Framed(ledger[p.last..next]) == sent + [RunEvent(ledger[next - 1])];
    }
  }

  /** A ledger that has grown since still holds what was sent. */
  lemma SentBefore(frames: seq<Frame>, views: seq<Read>, p: Progress, i: int, j: int)
    requires Growing(views) && Readable(views, i) && Readable(views, j) && i <= j && Sent(frames, views[i].ledger, p)
    ensures Sent(frames, views[j].ledger, p) && |views[i].ledger| <= |views[j].ledger|
  {
    hide Carried, CompletesAfter;
    assert views[j].ledger[p.cursor..p.last] == views[i].ledger[p.cursor..p.last];
  }

  lemma NoCompletion(frames: seq<Frame>)
    requires CompleteCount(frames) == 0
    ensures forall p :: 0 <= p < |frames| ==> !frames[p].RunComplete?
  {
    forall p | 0 <= p < |frames|
      ensures frames[p] != RunComplete
    {
      assert multiset(frames)[frames[p]] > 0;
    }
  }

  /** No completion yet, so it does not matter where it will come. */
  lemma NoneYet(frames: seq<Frame>, ledger: seq<Event>, p: Progress, end: int)
    requires Sent(frames, ledger, p) && !p.complete
    ensures Sent(frames, ledger, p.(end := end))
  {
    hide Carried;
    NoCompletion(frames);
  }

  /** The connection was cut, or the stream was ended by an error frame. */
  predicate Broken(room: nat, p: Progress) {
    room == 0 || p.failed
  }

  /** What every part of the stream does to the wire: it only adds frames, each into a place
      that the connection still had. */
  twostate predicate Appended(wire: Wire)
    reads wire
  {
    old(wire.frames) <= wire.frames && |wire.frames| + wire.room == |old(wire.frames)| + old(wire.room)
  }

  /** One frame that is not an event, if the connection still takes it. */
  method Send(wire: Wire, frame: Frame, ghost ledger: seq<Event>, ghost p: Progress) returns (ok: bool, ghost q: Progress)
    requires Sent(wire.frames, ledger, p) && !frame.RunEvent?
    requires frame.RunComplete? ==> !p.complete && p.end == p.last
    modifies wire
    ensures Sent(wire.frames, ledger, q) && q == if ok then After(p, frame) else p
    ensures ok <==> old(wire.room) > 0
    ensures !ok ==> wire.room == 0
    ensures Appended(wire)
  {
    SentMore(wire.frames, ledger, p, frame);
    ok := wire.Write(frame);
    q := if ok then After(p, frame) else p;
  }

  lemma PagePart(ledger: seq<Event>, page: seq<Event>, last: int, next: int)
    requires 0 <= last <= next <= last + |page| <= |ledger| && page == ledger[last..last + |page|]
    ensures page[..next - last] == ledger[last..next]
  {
  }

  /** The loop that sends what is there when the stream opens, page by page. It needs one
      read for every hundred events, and one more. If it comes to its end, everything that
      the last read saw has been sent; it ends early only by a cut or a read that fails. */
  method Drain(wire: Wire, views: seq<Read>, cursor: int, ghost p: Progress)
    returns (last: int, i: nat, ok: bool, ghost q: Progress)
    requires Growing(views) && Readable(views, 0) && 0 <= cursor <= |views[0].ledger|
    requires Sent(wire.frames, views[0].ledger, p) && p == Progress(cursor, cursor, false, cursor, 0, false)
    modifies wire
    ensures Readable(views, i) && Sent(wire.frames, views[i].ledger, q)
    ensures q == Progress(cursor, last, false, last, 0, q.failed)
    ensures 100 * i <= |views[i].ledger| - cursor
    ensures ok ==> last == |views[i].ledger| && !q.failed
    ensures !ok ==> Broken(wire.room, q) && (q.failed ==> !Readable(views, i + 1))
    ensures Appended(wire)
  {
    hide Sent, Growing, Numbered, Paging.Slice;
    last, i, q := cursor, 0, p;
    while true
      invariant Readable(views, i) && Sent(wire.frames, views[i].ledger, q) && last <= |views[i].ledger|
      invariant q == Progress(cursor, last, false, last, 0, false)
      invariant last == cursor + BATCH_SIZE * i
      invariant Appended(wire)
      decreases |views| - i
    {
      LastOf(wire.frames, views[i].ledger, q);
      var batch := Paging.Slice(views[i].ledger, last, BATCH_SIZE);
      PageContinues(views[i].ledger, last);
      ghost var sent := wire.frames;
      var next, written := WriteEventBatch(wire, batch, last);
      PagePart(views[i].ledger, batch, last, next);
      SentEvents(sent, views[i].ledger, q, next);
      NoneYet(wire.frames, views[i].ledger, q.(last := next), next);
      last, q := next, q.(last := next, end := next);
      if !written {
        return last, i, false, q;
      }
      var flushed := wire.Flush();
      if !flushed {
        return last, i, false, q;
      }
      if |batch| < BATCH_SIZE {
        return last, i, true, q;
      }
      if !Readable(views, i + 1) {
        var told;
        told, q := Send(wire, StreamError, views[i].ledger, q);
        return last, i, false, q;
      }
      SentBefore(wire.frames, views, q, i, i + 1);
      i := i + 1;
    }
  }

  predicate ShowsTerminal(views: seq<Read>, k: int) {
    Readable(views, k) && IsTerminalRun(views[k].run)
  }

  /** How far the events go after n full pages from a cursor, or to the end. */
  function Upto(ledger: seq<Event>, cursor: int, pages: nat): int {
    if cursor + BATCH_SIZE * pages < |ledger| then cursor + BATCH_SIZE * pages else |ledger|
  }

  /** None of the reads from one on and before another shows the run terminal. */
  predicate NoneTerminal(views: seq<Read>, from: int, to: int) {
    forall k :: from <= k < to ==> !ShowsTerminal(views, k)
  }

  /** Read number `shown` is the first of a poll to show the run terminal, and the completion
      came right after its page. */
  predicate CompletedAt(views: seq<Read>, from: int, last0: int, shown: int, end: int) {
    && from <= shown && ShowsTerminal(views, shown) && NoneTerminal(views, from, shown)
    && end == Upto(views[shown].ledger, last0, shown - from + 1)
  }

  lemma NoReads(views: seq<Read>, from: int)
    ensures NoneTerminal(views, from, from)
  {
  }

  lemma OneRead(views: seq<Read>, from: int, k: int)
    requires from <= k
    ensures NoneTerminal(views, from, k + 1) <==> NoneTerminal(views, from, k) && !ShowsTerminal(views, k)
  {
  }

  lemma CompletesHere(views: seq<Read>, from: int, last0: int, i: int, last: int)
    requires from <= i && Readable(views, i) && IsTerminalRun(views[i].run) && NoneTerminal(views, from, i)
    requires if last == |views[i].ledger| then last <= last0 + BATCH_SIZE * (i - from + 1)
             else last < |views[i].ledger| && last == last0 + BATCH_SIZE * (i - from + 1)
    ensures CompletedAt(views, from, last0, i, last)
  {
  }

  /** One poll: pages until a short one, after which everything that the last read saw has
      been sent, and the completion if it is still to be sent. It comes right after the first
      page whose read shows the run terminal, so after all that this read saw exactly if that
      page was the last. */
  method Poll(wire: Wire, views: seq<Read>, from: nat, last0: int, complete0: bool, ghost p: Progress)
    returns (last: int, i: nat, complete: bool, ok: bool, ghost q: Progress, ghost shown: int)
    requires Growing(views) && Readable(views, from) && Sent(wire.frames, views[from].ledger, p)
    requires p.last == last0 && p.complete == complete0 && !p.failed
    modifies wire
    ensures from <= i && Readable(views, i) && Sent(wire.frames, views[i].ledger, q)
    ensures q == Progress(p.cursor, last, complete, q.end, p.beats, q.failed) && last0 <= last
    ensures ok ==> last == |views[i].ledger| && !q.failed
    ensures !ok ==> Broken(wire.room, q) && (q.failed ==> !Readable(views, i + 1))
    ensures complete0 ==> complete && q.end == p.end
    ensures !complete0 && complete ==> shown <= i && CompletedAt(views, from, last0, shown, q.end)
    ensures ok && !complete ==> NoneTerminal(views, from, i + 1)
    ensures Appended(wire)
  {
    hide Sent, Growing, Numbered, Paging.Slice, IsTerminalRun, NoneTerminal, CompletedAt, Continues, Framed;
    LastOf(wire.frames, views[from].ledger, p);
    NoReads(views, from);
    last, i, complete, q, shown := last0, from, complete0, p, -1;
    while true
      invariant from <= i && Readable(views, i) && Sent(wire.frames, views[i].ledger, q) && last0 <= last <= |views[i].ledger|
      invariant q == Progress(p.cursor, last, complete, q.end, p.beats, false)
      invariant last == last0 + BATCH_SIZE * (i - from)
      invariant complete0 ==> complete && q.end == p.end
      invariant !complete ==> NoneTerminal(views, from, i)
      invariant !complete0 && complete ==> shown < i && CompletedAt(views, from, last0, shown, q.end)
      invariant Appended(wire)
      decreases |views| - i
    {
      LastOf(wire.frames, views[i].ledger, q);
      var batch := Paging.Slice(views[i].ledger, last, BATCH_SIZE);
      PageContinues(views[i].ledger, last);
      ghost var sent := wire.frames;
      var next, written := WriteEventBatch(wire, batch, last);
      PagePart(views[i].ledger, batch, last, next);
      SentEvents(sent, views[i].ledger, q, next);
      last, q := next, q.(last := next);
      OneRead(views, from, i);
      if !written {
        return last, i, complete, false, q, shown;
      }
      if !complete && IsTerminalRun(views[i].run) {
        NoneYet(wire.frames, views[i].ledger, q, last);
        complete, q := Send(wire, RunComplete, views[i].ledger, q.(end := last));
        if !complete {
          return last, i, complete, false, q, shown;
        }
        shown := i;
        CompletesHere(views, from, last0, i, last);
      }
      var flushed := wire.Flush();
      if !flushed {
        return last, i, complete, false, q, shown;
      }
      if |batch| < BATCH_SIZE {
        return last, i, complete, true, q, shown;
      }
      if !Readable(views, i + 1) {
        var told;
        told, q := Send(wire, StreamError, views[i].ledger, q);
        return last, i, complete, false, q, shown;
      }
      SentBefore(wire.frames, views, q, i, i + 1);
      i := i + 1;
    }
  }

  function Count(ticks: seq<Tick>, tick: Tick): nat {
    multiset(ticks)[tick]
  }

  lemma CountSnoc(ticks: seq<Tick>, t: nat, tick: Tick)
    requires t < |ticks|
    ensures Count(ticks[..t + 1], tick) == Count(ticks[..t], tick) + if ticks[t] == tick then 1 else 0
    ensures Count(ticks[..t + 1], tick) <= Count(ticks, tick)
  {
    assert ticks[..t + 1] == ticks[..t] + [ticks[t]];
    assert ticks == ticks[..t + 1] + ticks[t + 1..];
  }

  /** How a stream stands after some ticks since read number `from`. It has performed a read
      for every poll, at least, and has sent what the last read saw; it has sent a heartbeat
      for every heartbeat tick, and the completion exactly if some read showed the run
      terminal. */
  ghost predicate Followed(views: seq<Read>, ticks: seq<Tick>, from: nat, p: Progress, i: nat, q: Progress) {
    && from + Count(ticks, PollTick) <= i && Readable(views, i) && q.last == |views[i].ledger|
    && q.beats == p.beats + Count(ticks, HeartbeatTick)
    && (q.complete <==> p.complete || !NoneTerminal(views, from + 1, i + 1))
  }

  /** After the drain: heartbeats and polls until the connection or the context ends. */
  method Follow(wire: Wire, views: seq<Read>, ticks: seq<Tick>, from: nat, last0: int, complete0: bool, ghost p: Progress)
    returns (last: int, i: nat, ghost q: Progress)
    requires Growing(views) && Readable(views, from) && Sent(wire.frames, views[from].ledger, p)
    requires p.last == last0 == |views[from].ledger| && p.complete == complete0 && !p.failed
    modifies wire
    ensures from <= i && Readable(views, i) && Sent(wire.frames, views[i].ledger, q)
    ensures q.cursor == p.cursor && q.last == last
    ensures p.complete ==> q.complete && q.end == p.end
    ensures q.complete ==> p.complete || !NoneTerminal(views, from + 1, i + 1)
    ensures q.beats <= p.beats + Count(ticks, HeartbeatTick)
    ensures q.failed ==> !Readable(views, i + 1)
    ensures Broken(wire.room, q) || Followed(views, ticks, from, p, i, q)
    ensures Appended(wire)
  {
    hide Sent, Growing, Upto, IsTerminalRun, Count;
    NothingTicked();
    last, i, q := last0, from, p;
    var completeSent := complete0;
    for t := 0 to |ticks|
      invariant from <= i && Readable(views, i) && Sent(wire.frames, views[i].ledger, q)
      invariant q.cursor == p.cursor && q.last == last && q.complete == completeSent && !q.failed
      invariant p.complete ==> completeSent && q.end == p.end
      invariant Followed(views, ticks[..t], from, p, i, q)
      invariant Appended(wire)
    {
      var ok: bool;
      CountSnoc(ticks, t, PollTick);
      CountSnoc(ticks, t, HeartbeatTick);
      if ticks[t] == HeartbeatTick {
        ok, q := Send(wire, Heartbeat, views[i].ledger, q);
        var flushed := wire.Flush();
        ok := ok && flushed;
      } else if Readable(views, i + 1) {
        SentBefore(wire.frames, views, q, i, i + 1);
        ghost var shown;
        ghost var before := i;
        last, i, completeSent, ok, q, shown := Poll(wire, views, i + 1, last, completeSent, q);
        MoreReads(views, from + 1, before + 1, i + 1);
      } else {
        var told;
        told, q := Send(wire, StreamError, views[i].ledger, q);
        ok := false;
      }
      if !ok {
        return;
      }
    }
    assert ticks[..|ticks|] == ticks;
  }

  lemma NothingTicked()
    ensures Count([], PollTick) == 0 && Count([], HeartbeatTick) == 0
  {
  }

  lemma MoreReads(views: seq<Read>, a: int, b: int, c: int)
    requires a <= b <= c
    ensures NoneTerminal(views, a, c) <==> NoneTerminal(views, a, b) && NoneTerminal(views, b, c)
  {
  }

  // ----- one connection -----

  /** What a streamed connection amounts to; the reads are numbered, `drained` is the last of
      the opening drain and `read` the last of all. The frames carry the events after the
      cursor, each once and in order, as the last read saw them. Unless the connection was
      cut or a read failed, everything that the last read saw was sent, every poll has read
      again, every heartbeat was sent, and the run was completed exactly if a read from the
      drain's last one on showed it terminal. */
  ghost predicate StreamedWell(frames: seq<Frame>, room: nat, views: seq<Read>, ticks: seq<Tick>,
                               p: Progress, drained: nat, read: nat) {
    && drained <= read && Readable(views, drained) && Readable(views, read)
    && 0 <= p.cursor <= p.last <= |views[read].ledger|
    && Carried(frames) == views[read].ledger[p.cursor..p.last] && IDs(frames) == Range(p.cursor, p.last)
    && drained <= (|views[drained].ledger| - p.cursor) / BATCH_SIZE
    && CompleteCount(frames) <= 1 && HeartbeatCount(frames) <= Count(ticks, HeartbeatTick)
    && (CompleteCount(frames) == 1 ==> !NoneTerminal(views, drained, read + 1))
    && (TerminalFromTheStart(views) ==> CompletesAfter(frames, p.cursor, |views[drained].ledger|))
    && (StreamError in frames ==> !Readable(views, read + 1))
    && (room == 0 || StreamError in frames
        || (&& p.last == |views[read].ledger| && read >= drained + Count(ticks, PollTick)
            && HeartbeatCount(frames) == Count(ticks, HeartbeatTick)
            && (CompleteCount(frames) == 1 <==> !NoneTerminal(views, drained, read + 1))))
  }

  lemma StreamsWell(frames: seq<Frame>, room: nat, views: seq<Read>, ticks: seq<Tick>, p: Progress, drained: nat, read: nat,
                    p0: Progress)
    requires drained <= read && Readable(views, drained) && Readable(views, read) && Sent(frames, views[read].ledger, p)
    requires BATCH_SIZE * drained <= |views[drained].ledger| - p.cursor
    requires p0.complete <==> ShowsTerminal(views, drained)
    requires p0.complete ==> p.complete && p.end == |views[drained].ledger|
    requires p.complete ==> p0.complete || !NoneTerminal(views, drained + 1, read + 1)
    requires p0.beats == 0 && p.beats <= Count(ticks, HeartbeatTick) && (p.failed ==> !Readable(views, read + 1))
    requires Broken(room, p) || Followed(views, ticks, drained, p0, read, p)
    ensures StreamedWell(frames, room, views, ticks, p, drained, read)
  {
    hide Carried, Count, IsTerminalRun;
    SliceIDs(views[read].ledger, p.cursor, p.last);
    MoreReads(views, drained, drained + 1, read + 1);
    OneRead(views, drained, drained);
    CompletionOf(frames, views, p, drained, read);
  }

  lemma CompletionOf(frames: seq<Frame>, views: seq<Read>, p: Progress, drained: nat, read: nat)
    requires Readable(views, read) && Sent(frames, views[read].ledger, p) && Readable(views, drained)
    requires ShowsTerminal(views, drained) && p.complete ==> p.end == |views[drained].ledger|
    ensures TerminalFromTheStart(views) ==> CompletesAfter(frames, p.cursor, |views[drained].ledger|)
  {
    if !p.complete {
      NoneYet(frames, views[read].ledger, p, |views[drained].ledger|);
    }
  }

  /** A stream that broke before it had sent a completion. */
  lemma BrokenEarly(frames: seq<Frame>, room: nat, views: seq<Read>, ticks: seq<Tick>, p: Progress, drained: nat)
    requires Readable(views, drained) && Sent(frames, views[drained].ledger, p) && !p.complete && p.beats == 0
    requires BATCH_SIZE * drained <= |views[drained].ledger| - p.cursor
    requires Broken(room, p) && (p.failed ==> !Readable(views, drained + 1))
    ensures StreamedWell(frames, room, views, ticks, p, drained, drained)
  {
    hide Carried, Count, IsTerminalRun;
    SliceIDs(views[drained].ledger, p.cursor, p.last);
    NoneYet(frames, views[drained].ledger, p, |views[drained].ledger|);
  }

  /** The opening drain, the completion of a terminal run, and then what follows. */
  method Stream(wire: Wire, views: seq<Read>, ticks: seq<Tick>, cursor: int, ghost p: Progress)
    returns (ghost q: Progress, ghost drained: nat, ghost read: nat)
    requires Growing(views) && Readable(views, 0) && 0 <= cursor <= |views[0].ledger|
    requires Sent(wire.frames, views[0].ledger, p) && p == Progress(cursor, cursor, false, cursor, 0, false)
    modifies wire
    ensures StreamedWell(wire.frames, wire.room, views, ticks, q, drained, read) && q.cursor == cursor
    ensures Appended(wire)
  {
    hide Sent, Growing, StreamedWell, Followed, IsTerminalRun, Count;
    var lastSequence, i, ok;
    lastSequence, i, ok, q := Drain(wire, views, cursor, p);
    drained, read := i, i;
    if !ok {
      BrokenEarly(wire.frames, wire.room, views, ticks, q, drained);
      return;
    }
    var completeSent := false;
    if IsTerminalRun(views[i].run) {
      completeSent, q := Send(wire, RunComplete, views[i].ledger, q);
      var flushed := wire.Flush();
      if !completeSent {
        BrokenEarly(wire.frames, wire.room, views, ticks, q, drained);
        return;
      }
      if !flushed {
        StreamsWell(wire.frames, wire.room, views, ticks, q, drained, read, q);
        return;
      }
    }
    ghost var q0 := q;
    lastSequence, i, q := Follow(wire, views, ticks, i, lastSequence, completeSent, q);
    read := i;
    StreamsWell(wire.frames, wire.room, views, ticks, q, drained, read, q0);
  }

  /** Serve one connection. Only a cursor ahead of the ledger is refused as ahead; what is
      streamed begins with the retry line and is what StreamedWell says. */
  method Serve(wire: Wire, header: seq<string>, views: seq<Read>, ticks: seq<Tick>)
    returns (reply: Reply, ghost cursor: int, ghost p: Progress, ghost drained: nat, ghost read: nat)
    requires Growing(views) && wire.frames == []
    modifies wire
    ensures header == [] || (|header| == 1 && Canonical(header[0]) && Value(header[0]) <= INT32_MAX) <==> reply != BadHeader
    ensures reply != BadHeader ==> cursor == if header == [] then 0 else Value(header[0])
    ensures reply == Ahead <==> reply != BadHeader && Readable(views, 0) && cursor > |views[0].ledger|
    ensures reply == Streamed <==> reply != BadHeader && Readable(views, 0) && cursor <= |views[0].ledger|
    ensures reply != Streamed ==> wire.frames == []
    ensures reply == Streamed ==> p.cursor == cursor && StreamedWell(wire.frames, wire.room, views, ticks, p, drained, read)
    ensures |wire.frames| + wire.room == old(wire.room) && (wire.frames != [] ==> wire.frames[0] == Retry)
  {
    hide StreamedWell, Sent, Growing, Count;
    p, drained, read := Progress(0, 0, false, 0, 0, false), 0, 0;
    var parsed := ParseLastEventID(header);
    if parsed.None? {
      cursor := 0;
      return BadHeader, cursor, p, 0, 0;
    }
    cursor := parsed.value;
    if |views| == 0 || views[0].Failed? {
      return Unavailable, cursor, p, 0, 0;
    }
    if views[0].Absent? {
      return NotFound, cursor, p, 0, 0;
    }
    if parsed.value > |views[0].ledger| {
      return Ahead, cursor, p, 0, 0;
    }
    reply := Streamed;
    p := Progress(cursor, cursor, false, cursor, 0, false);
    var started := wire.Write(Retry);
    Opening(wire.frames, views, p);
    var flushed := wire.Flush();
    if !started || !flushed {
      BrokenEarly(wire.frames, wire.room, views, ticks, p, 0);
      return;
    }
    p, drained, read := Stream(wire, views, ticks, parsed.value, p);
  }

  /** As for every run that the service creates. */
  predicate TerminalFromTheStart(views: seq<Read>) {
    forall i :: 0 <= i < |views| && views[i].Page? ==> IsTerminalRun(views[i].run)
  }

  lemma Opening(frames: seq<Frame>, views: seq<Read>, p: Progress)
    requires Growing(views) && Readable(views, 0) && 0 <= p.cursor <= |views[0].ledger|
    requires frames == [] || frames == [] + [Retry]
    requires p == Progress(p.cursor, p.cursor, false, p.cursor, 0, false)
    ensures Sent(frames, views[0].ledger, p)
  {
    CarriedSnoc([], Retry);
  }

  // ----- a client over many connections -----

  /** One connection of a client: how much the network takes before it breaks, what the reads
      see, how the server's timers fire, and how many of the sent frames arrive. */
  datatype Plan = Plan(room: nat, views: seq<Read>, ticks: seq<Tick>, arriving: nat)

  /** Over all connections the ledger only grows, and stays within the header's range. */
  ghost predicate PlansGrow(plans: seq<Plan>) {
    && (forall k :: 0 <= k < |plans| ==> Growing(plans[k].views))
    && (forall k, l, i, j :: 0 <= k < l < |plans| && Readable(plans[k].views, i) && Readable(plans[l].views, j)
          ==> |plans[k].views[i].ledger| <= |plans[l].views[j].ledger|)
    && (forall k, i :: 0 <= k < |plans| && Readable(plans[k].views, i) ==> |plans[k].views[i].ledger| <= INT32_MAX)
  }

  lemma {:induction false} ArrivingIDs(frames: seq<Frame>, n: nat, cursor: int, last: int)
    requires n <= |frames| && cursor <= last && IDs(frames) == Range(cursor, last)
    ensures |IDs(frames[..n])| <= last - cursor && IDs(frames[..n]) == Range(cursor, cursor + |IDs(frames[..n])|)
    decreases |frames|
  {
    if n < |frames| {
      var f, before := frames[|frames| - 1], frames[..|frames| - 1];
      assert frames == before + [f];
      CarriedSnoc(before, f);
      var shorter := if f.RunEvent? then last - 1 else last;
      assert |IDs(before)| == shorter - cursor;
      assert IDs(before) == IDs(frames)[..shorter - cursor] == Range(cursor, shorter);
      ArrivingIDs(before, n, cursor, shorter);
      assert before[..n] == frames[..n];
    } else {
      assert frames[..n] == frames;
    }
  }

  lemma RangesJoin(a: int, b: int, c: int)
    requires a <= b <= c
    ensures Range(a, b) + Range(b, c) == Range(a, c)
  {
  }

  /** No ledger from plan k on is shorter than what the client has. */
  ghost predicate Within(plans: seq<Plan>, k: int, last: int) {
    forall l, j :: k <= l < |plans| && 0 <= l && Readable(plans[l].views, j) ==> last <= |plans[l].views[j].ledger|
  }

  lemma WithinFirst(plans: seq<Plan>, k: nat, last: int)
    requires PlansGrow(plans) && k < |plans| && Within(plans, k, last)
    ensures Growing(plans[k].views) && Within(plans, k + 1, last)
    ensures Readable(plans[k].views, 0) ==> last <= |plans[k].views[0].ledger|
  {
    hide Growing;
  }

  lemma WithinNext(plans: seq<Plan>, k: nat, read: nat, last: int)
    requires PlansGrow(plans) && k < |plans| && Readable(plans[k].views, read) && last <= |plans[k].views[read].ledger|
    ensures Within(plans, k + 1, last) && last <= INT32_MAX
  {
    hide Growing;
    forall l, j | k + 1 <= l < |plans| && Readable(plans[l].views, j)
      ensures last <= |plans[l].views[j].ledger|
    {
      assert |plans[k].views[read].ledger| <= |plans[l].views[j].ledger|;
    }
  }

  lemma WithinNothing(plans: seq<Plan>)
    ensures Within(plans, 0, 0)
  {
  }

  /** The client has everything that read number `read` saw, and there was a read before it
      for every poll. */
  predicate CaughtUp(plan: Plan, read: nat, received: nat) {
    Readable(plan.views, read) && received == |plan.views[read].ledger| && read >= Count(plan.ticks, PollTick)
  }

  /** What one connection has brought a client that has received so much. */
  predicate Delivered(plan: Plan, frames: seq<Frame>, room: nat, read: nat, received: nat) {
    && |frames| + room == plan.room && (StreamError in frames ==> !Readable(plan.views, read + 1))
    && (Readable(plan.views, 0) && room > 0 && StreamError !in frames && plan.arriving >= |frames|
        ==> CaughtUp(plan, read, received))
  }

  /** One connection of a client that has received so much. */
  method Receive(plan: Plan, last: nat) returns (ids: seq<int>, refused: bool, ghost frames: seq<Frame>, ghost room: nat,
                                                 ghost read: nat)
    requires Growing(plan.views) && last <= INT32_MAX && (Readable(plan.views, 0) ==> last <= |plan.views[0].ledger|)
    ensures !refused && ids == Range(last, last + |ids|)
    ensures ids != [] ==> Readable(plan.views, read) && last + |ids| <= |plan.views[read].ledger|
    ensures Delivered(plan, frames, room, read, last + |ids|)
  {
    hide Growing, Canonical, IDs, StreamedWell, Range, Count;
    NothingReceived(last);
    var wire := new Wire(plan.room);
    HeaderIsRead(last);
    var reply;
    ghost var cursor, p, drained;
    reply, cursor, p, drained, read := Serve(wire, LastEventID(last), plan.views, plan.ticks);
    frames, room := wire.frames, wire.room;
    refused := reply == BadHeader || reply == Ahead;
    var arrived := wire.frames[..if plan.arriving < |wire.frames| then plan.arriving else |wire.frames|];
    ids := IDs(arrived);
    if reply == Streamed {
      StreamFacts(wire.frames, wire.room, plan.views, plan.ticks, p, drained, read);
      ArrivingIDs(wire.frames, |arrived|, cursor, p.last);
      assert plan.arriving >= |frames| ==> arrived == frames;
    } else {
      assert arrived == [];
    }
  }

  /** Gap-free resume: over any number of connections, cut anywhere, a client that sends back
      the last id it received gets 1, 2, ..., k with no gap and no repeat, and is never told
      that its cursor is malformed or ahead of the ledger. If the last connection is not cut,
      no read of it fails and all its frames arrive, then k is the length of the ledger that
      its last read saw, which is at least one read for every poll later than the first. */
  method FollowRun(plans: seq<Plan>)
    returns (received: seq<int>, refused: bool, ghost frames: seq<Frame>, ghost room: nat, ghost read: nat)
    requires PlansGrow(plans)
    ensures received == Range(0, |received|) && !refused
    ensures plans != [] ==>
      var plan := plans[|plans| - 1];
      && |frames| + room == plan.room && (StreamError in frames ==> !Readable(plan.views, read + 1))
      && (Readable(plan.views, 0) && room > 0 && StreamError !in frames && plan.arriving >= |frames|
          ==> CaughtUp(plan, read, |received|))
  {
    hide Growing, Range, PlansGrow, Within, Delivered;
    NothingReceived(0);
    WithinNothing(plans);
    received, refused := [], false;
    frames, room, read := [], 0, 0;
    var last: nat := 0;
    for k := 0 to |plans|
      invariant received == Range(0, last) && !refused && last <= INT32_MAX
      invariant Within(plans, k, last)
      invariant k > 0 ==> Delivered(plans[k - 1], frames, room, read, last)
    {
      WithinFirst(plans, k, last);
      var ids, ahead;
      ids, ahead, frames, room, read := Receive(plans[k], last);
      refused := refused || ahead;
      RangesJoin(0, last, last + |ids|);
      if ids != [] {
        WithinNext(plans, k, read, last + |ids|);
      }
      received := received + ids;
      last := last + |ids|;
    }
    if plans != [] {
      DeliveredWhat(plans[|plans| - 1], frames, room, read, last);
    }
  }

  lemma DeliveredWhat(plan: Plan, frames: seq<Frame>, room: nat, read: nat, received: nat)
    requires Delivered(plan, frames, room, read, received)
    ensures |frames| + room == plan.room && (StreamError in frames ==> !Readable(plan.views, read + 1))
    ensures Readable(plan.views, 0) && room > 0 && StreamError !in frames && plan.arriving >= |frames|
      ==> CaughtUp(plan, read, received)
  {
  }

  lemma StreamFacts(frames: seq<Frame>, room: nat, views: seq<Read>, ticks: seq<Tick>, p: Progress, drained: nat, read: nat)
    requires StreamedWell(frames, room, views, ticks, p, drained, read)
    ensures Readable(views, read) && 0 <= p.cursor <= p.last <= |views[read].ledger| && IDs(frames) == Range(p.cursor, p.last)
    ensures StreamError in frames ==> !Readable(views, read + 1)
    ensures room > 0 && StreamError !in frames ==> p.last == |views[read].ledger| && read >= Count(ticks, PollTick)
  {
    hide IDs, Carried, CompletesAfter, CompleteCount, HeartbeatCount, TerminalFromTheStart, NoneTerminal, Count;
  }

  lemma NothingReceived(last: int)
    ensures Range(last, last) == [] && IDs([]) == []
  {
  }

  lemma HeaderIsRead(last: nat)
    requires last <= INT32_MAX
    ensures LastEventID(last) != [] ==> Canonical(Itoa(last)) && Value(Itoa(last)) == last
  {
    ItoaCanonical(last);
  }
}
