/** The login limiter: fixed windows of five minutes in a table of bounded size, against the
    history of failures and successes, on a clock that does not go back. */
module LoginLimiter {
  import opened Options
  import opened Text

  const MAX_LOGIN_BUCKETS := 4096
  const WINDOW := 300_000_000_000
  const UINT64 := 0x1_0000_0000_0000_0000

  datatype Bucket = Bucket(failures: int, resetAt: int)

  datatype Mark = Failure(key: string, at: int) | Success(key: string)

  // ----- what a history says -----

  /** The times of a key's failures since its last success. */
  function Streak(history: seq<Mark>, key: string): seq<int> {
    if history == [] then []
    else
      var before := Streak(history[..|history| - 1], key);
      match history[|history| - 1]
      case Failure(k, at) => if k == key then before + [at] else before
      case Success(k) => if k == key then [] else before
  }

  /** The window that a key is in, as if nothing were ever evicted: it opens with the first
      failure outside a window and counts from there. */
  function WindowOf(history: seq<Mark>, key: string): Option<Bucket> {
    if history == [] then None
    else
      var before := WindowOf(history[..|history| - 1], key);
      match history[|history| - 1]
      case Failure(k, at) =>
        if k != key then before
        else if before.Some? && before.value.resetAt > at then Some(before.value.(failures := before.value.failures + 1))
        else Some(Bucket(1, at + WINDOW))
      case Success(k) => if k == key then None else before
  }

  lemma StreakSnoc(history: seq<Mark>, m: Mark, key: string)
    ensures Streak(history + [m], key)
         == if m.key != key then Streak(history, key) else if m.Failure? then Streak(history, key) + [m.at] else []
  {
    assert (history + [m])[..|history|] == history;
  }

  lemma WindowSnoc(history: seq<Mark>, m: Mark, key: string)
    ensures WindowOf(history + [m], key)
         == if m.key != key then WindowOf(history, key)
            else if m.Success? then None
            else
              var before := WindowOf(history, key);
              if before.Some? && before.value.resetAt > m.at then Some(before.value.(failures := before.value.failures + 1))
              else Some(Bucket(1, m.at + WINDOW))
  {
    assert (history + [m])[..|history|] == history;
  }

  /** The last n failures of a streak lie in the five minutes before resetAt. */
  predicate LastWithin(streak: seq<int>, n: int, resetAt: int) {
    1 <= n <= |streak| && forall i :: |streak| - n <= i < |streak| ==> resetAt - 5 * 60 * 1_000_000_000 <= streak[i] < resetAt
  }

  /** Times in a history do not exceed the clock. */
  predicate Elapsed(history: seq<Mark>, now: int) {
    forall i :: 0 <= i < |history| && history[i].Failure? ==> history[i].at <= now
  }

  predicate InOrder(history: seq<Mark>) {
    forall i, j :: 0 <= i <= j < |history| && history[i].Failure? && history[j].Failure? ==> history[i].at <= history[j].at
  }

  function CountFrom(times: seq<int>, start: int): nat {
    if times == [] then 0 else CountFrom(times[..|times| - 1], start) + if times[|times| - 1] >= start then 1 else 0
  }

  lemma {:induction false} NoneFrom(times: seq<int>, start: int)
    requires forall i :: 0 <= i < |times| ==> times[i] < start
    ensures CountFrom(times, start) == 0
  {
    if times != [] {
      NoneFrom(times[..|times| - 1], start);
    }
  }

  /** A bucket counts exactly the failures since its window opened, which it did with one. */
  predicate Counts(b: Bucket, streak: seq<int>) {
    && b.resetAt - 5 * 60 * 1_000_000_000 in streak && CountFrom(streak, b.resetAt - 5 * 60 * 1_000_000_000) == b.failures
    && LastWithin(streak, b.failures, b.resetAt)
    && forall i :: 0 <= i < |streak| ==> streak[i] < b.resetAt
  }

  lemma CountsMore(b: Bucket, streak: seq<int>, at: int)
    requires Counts(b, streak) && at < b.resetAt && forall i :: 0 <= i < |streak| ==> streak[i] <= at
    ensures Counts(b.(failures := b.failures + 1), streak + [at])
  {
    var longer := streak + [at];
    assert longer[..|longer| - 1] == streak;
    var i :| 0 <= i < |streak| && streak[i] == b.resetAt - WINDOW;
    assert longer[i] == b.resetAt - WINDOW;
  }

  lemma CountsNew(streak: seq<int>, at: int)
    requires forall i :: 0 <= i < |streak| ==> streak[i] < at
    ensures Counts(Bucket(1, at + WINDOW), streak + [at])
  {
    var longer := streak + [at];
    assert longer[..|longer| - 1] == streak && longer[|streak|] == at;
    NoneFrom(streak, at);
  }

  lemma {:induction false} WindowCounts(history: seq<Mark>, key: string)
    requires InOrder(history) && WindowOf(history, key).Some?
    ensures Counts(WindowOf(history, key).value, Streak(history, key))
  {
    hide Counts, LastWithin, Streak, WindowOf;
    NoWindowNoStreak(history, key);
    if history == [] {
      EmptyStreak(key);
    } else {
      var k := |history| - 1;
      var h, m := history[..k], history[k];
      assert history == h + [m];
      StreakSnoc(h, m, key);
      WindowSnoc(h, m, key);
      NoWindowNoStreak(h, key);
      if m.key != key {
        WindowCounts(h, key);
      } else {
        StreakUntil(h, m, key);
        var before := WindowOf(h, key);
        if before.Some? {
          WindowCounts(h, key);
          CountsBelow(before.value, Streak(h, key));
        }
        if before.Some? && before.value.resetAt > m.at {
          CountsMore(before.value, Streak(h, key), m.at);
        } else {
          CountsNew(Streak(h, key), m.at);
        }
      }
    }
  }

  lemma EmptyStreak(key: string)
    ensures Streak([], key) == []
  {
  }

  lemma CountsBelow(b: Bucket, streak: seq<int>)
    requires Counts(b, streak)
    ensures forall i :: 0 <= i < |streak| ==> streak[i] < b.resetAt
  {
  }

  lemma StreakUntil(h: seq<Mark>, m: Mark, key: string)
    requires InOrder(h + [m]) && m.Failure?
    ensures forall i :: 0 <= i < |Streak(h, key)| ==> Streak(h, key)[i] <= m.at
  {
    hide Streak;
    StreakFromHistory(h, key);
    var history := h + [m];
    forall i | 0 <= i < |Streak(h, key)|
      ensures Streak(h, key)[i] <= m.at
    {
      var j :| 0 <= j < |h| && h[j] == Failure(key, Streak(h, key)[i]);
      assert history[j] == h[j] && history[|h|] == m;
    }
  }

  lemma {:induction false} NoWindowNoStreak(history: seq<Mark>, key: string)
    ensures WindowOf(history, key).None? <==> Streak(history, key) == []
  {
    if history != [] {
      NoWindowNoStreak(history[..|history| - 1], key);
    }
  }

  lemma {:induction false} StreakFromHistory(history: seq<Mark>, key: string)
    ensures forall i :: 0 <= i < |Streak(history, key)| ==> Failure(key, Streak(history, key)[i]) in history
  {
    if history != [] {
      var h, m := history[..|history| - 1], history[|history| - 1];
      StreakFromHistory(h, key);
      assert history == h + [m];
      StreakSnoc(h, m, key);
    }
  }

  // ----- the table against the history -----

  function Live(buckets: map<string, Bucket>, key: string, now: int): Option<Bucket> {
    if key in buckets && buckets[key].resetAt > now then Some(buckets[key]) else None
  }

  function LiveWindow(history: seq<Mark>, key: string, now: int): Option<Bucket> {
    var w := WindowOf(history, key);
    if w.Some? && w.value.resetAt > now then w else None
  }

  /** Whatever a bucket counts did happen: so many failures of this key at the end of its
      streak, all in the bucket's five minutes. */
  ghost predicate Justified(buckets: map<string, Bucket>, history: seq<Mark>) {
    forall key :: key in buckets ==> LastWithin(Streak(history, key), buckets[key].failures, buckets[key].resetAt)
  }

  /** And as long as nothing was evicted, nothing was forgotten. */
  ghost predicate Exact(buckets: map<string, Bucket>, history: seq<Mark>, now: int) {
    forall key :: Live(buckets, key, now) == LiveWindow(history, key, now)
  }

  predicate Opened(buckets: map<string, Bucket>, now: int) {
    forall key :: key in buckets ==> buckets[key].resetAt <= now + WINDOW
  }

  /** A part of the table that lost only expired buckets. */
  predicate OnlyExpiredGone(t: map<string, Bucket>, t': map<string, Bucket>, now: int) {
    && (forall key :: key in t' ==> key in t && t'[key] == t[key])
    && (forall key :: key in t && key !in t' ==> t[key].resetAt <= now)
  }

  predicate Part(t: map<string, Bucket>, t': map<string, Bucket>) {
    forall key :: key in t' ==> key in t && t'[key] == t[key]
  }

  /** The buckets whose window is still open. */
  function Unexpired(t: map<string, Bucket>, now: int): map<string, Bucket> {
    map key | key in t && t[key].resetAt > now :: t[key]
  }

  lemma UnexpiredIs(t: map<string, Bucket>, t': map<string, Bucket>, now: int)
    requires OnlyExpiredGone(t, t', now) && forall key :: key in t' ==> t'[key].resetAt > now
    ensures t' == Unexpired(t, now)
  {
  }

  lemma UnexpiredPart(t: map<string, Bucket>, now: int)
    ensures OnlyExpiredGone(t, Unexpired(t, now), now) && Part(t, Unexpired(t, now))
  {
  }

  lemma PartOfPart(t: map<string, Bucket>, t': map<string, Bucket>, key: string)
    requires Part(t, t')
    ensures Part(t, t' - {key})
  {
  }

  lemma PartOpened(t: map<string, Bucket>, t': map<string, Bucket>, earlier: int, now: int)
    requires Opened(t, earlier) && earlier <= now && Part(t, t')
    ensures Opened(t', now)
  {
  }

  lemma PartJustified(t: map<string, Bucket>, t': map<string, Bucket>, history: seq<Mark>)
    requires Justified(t, history) && Part(t, t')
    ensures Justified(t', history)
  {
  }

  lemma ExpiredExact(t: map<string, Bucket>, t': map<string, Bucket>, history: seq<Mark>, earlier: int, now: int)
    requires Exact(t, history, earlier) && earlier <= now && OnlyExpiredGone(t, t', now)
    ensures Exact(t', history, now)
  {
    forall key
      ensures Live(t', key, now) == LiveWindow(history, key, now)
    {
      assert Live(t, key, earlier) == LiveWindow(history, key, earlier);
    }
  }

  lemma SelfPart(t: map<string, Bucket>, now: int)
    ensures OnlyExpiredGone(t, t, now) && Part(t, t)
  {
  }

  class LoginLimiter {
    var buckets: map<string, Bucket>
    var ops: nat
    ghost var history: seq<Mark>
    ghost var clock: int
    ghost var evicted: bool

    ghost predicate Valid()
      reads this
    {
      && |buckets| <= MAX_LOGIN_BUCKETS && ops < UINT64
      && InOrder(history) && Elapsed(history, clock) && Opened(buckets, clock)
      && Justified(buckets, history)
      && (!evicted ==> Exact(buckets, history, clock))
    }

    constructor (now: int)
      ensures Valid() && buckets == map[] && history == [] && !evicted && clock == now
    {
      buckets, ops, history, clock, evicted := map[], 0, [], now, false;
    }

    method DeleteExpired(now: int)
      modifies this`buckets
      ensures buckets == Unexpired(old(buckets), now) && |buckets| <= |old(buckets)|
    {
      var rest := buckets.Keys;
      while rest != {}
        invariant rest <= buckets.Keys && |buckets| <= |old(buckets)|
        invariant OnlyExpiredGone(old(buckets), buckets, now)
        invariant forall key :: key in buckets && key !in rest ==> buckets[key].resetAt > now
        decreases |rest|
      {
        var key :| key in rest;
        rest := rest - {key};
        if buckets[key].resetAt <= now {
          Smaller(buckets, key);
          buckets := buckets - {key};
        }
      }
      UnexpiredIs(old(buckets), buckets, now);
    }

    /** Make room, at every 64th operation and whenever the table is full: drop what has
        expired, and if that is not enough, any buckets until one place is free. */
    method Maintain(now: int)
      requires Valid() && clock <= now
      modifies this
      ensures Valid() && clock == now && history == old(history) && Part(old(buckets), buckets)
      ensures |buckets| < MAX_LOGIN_BUCKETS
      ensures |old(buckets)| < MAX_LOGIN_BUCKETS ==> evicted == old(evicted)
      ensures
        var open := Unexpired(old(buckets), now);
        if (old(ops) + 1) % UINT64 % 64 != 0 && |old(buckets)| < 4096 then buckets == old(buckets) && evicted == old(evicted)
        else if |open| < 4096 then buckets == open && evicted == old(evicted)
        else |buckets| == 4095 && Part(open, buckets) && evicted
    {
      hide Streak, WindowOf, LastWithin, LiveWindow, Live, OnlyExpiredGone, Exact, Justified, InOrder, Unexpired, Part;
      ops := (ops + 1) % UINT64;
      ghost var table, before := buckets, clock;
      clock := now;
      SelfPart(table, now);
      if ops % 64 != 0 && |buckets| < MAX_LOGIN_BUCKETS {
        if !evicted { ExpiredExact(table, buckets, history, before, now); }
        return;
      }
      DeleteExpired(now);
      UnexpiredPart(table, now);
      ghost var open := buckets;
      SelfPart(open, now);
      if !evicted { ExpiredExact(table, buckets, history, before, now); }
      while |buckets| >= MAX_LOGIN_BUCKETS
        modifies this`buckets, this`evicted
        invariant |buckets| <= MAX_LOGIN_BUCKETS && Part(table, buckets) && Part(open, buckets)
        invariant if |open| < 4096 then buckets == open && evicted == old(evicted) else |buckets| >= 4095
        invariant |buckets| < 4096 && |open| >= 4096 ==> evicted
        invariant |table| < MAX_LOGIN_BUCKETS ==> evicted == old(evicted) && |buckets| < MAX_LOGIN_BUCKETS
        invariant !evicted ==> Exact(buckets, history, now)
        decreases |buckets|
      {
        assert |buckets.Keys| > 0;
        var key :| key in buckets;
        Smaller(buckets, key);
        PartOfPart(table, buckets, key);
        PartOfPart(open, buckets, key);
        buckets := buckets - {key};
        evicted := true;
      }
      PartJustified(table, buckets, history);
      PartOpened(table, buckets, before, now);
    }

    /** A key that is limited has failed eight times in five minutes, with no success since
        the first of them; and while nothing was evicted, every key whose window counts eight
        failures is limited, until the window ends. */
    method Limited(key: string, now: int) returns (limited: bool, retry: int)
      requires Valid() && clock <= now
      modifies this
      ensures Valid() && history == old(history) && clock == now
      ensures limited ==> 0 < retry <= WINDOW && EightFailures(history, key, now + retry)
      ensures !evicted ==> (limited <==> LiveWindow(history, key, now).Some? && LiveWindow(history, key, now).value.failures >= 8)
      ensures !evicted && limited ==> now + retry == LiveWindow(history, key, now).value.resetAt
      ensures !limited ==> retry == 0
      ensures |old(buckets)| < MAX_LOGIN_BUCKETS ==> evicted == old(evicted)
    {
      hide Streak, WindowOf, OnlyExpiredGone, Justified, InOrder, Elapsed;
      Maintain(now);
      if key in buckets {
        JustifiedAt(buckets, history, key);
      }
      assert !evicted ==> Live(buckets, key, now) == LiveWindow(history, key, now);
      if key !in buckets || buckets[key].resetAt <= now {
        ghost var table := buckets;
        Smaller(buckets, key);
        buckets := buckets - {key};
        ExpiredDropped(table, key, now);
        PartJustified(table, buckets, history);
        if !evicted { ExpiredExact(table, buckets, history, now, now); }
        return false, 0;
      }
      var bucket := buckets[key];
      if bucket.failures < 8 {
        return false, 0;
      }
      return true, bucket.resetAt - now;
    }

    method Fail(key: string, now: int)
      requires Valid() && clock <= now
      modifies this
      ensures Valid() && history == old(history) + [Failure(key, now)] && clock == now
      ensures |old(buckets)| < MAX_LOGIN_BUCKETS ==> evicted == old(evicted)
    {
      hide Streak, WindowOf, LastWithin, LiveWindow, Live, Exact, Justified;
      Maintain(now);
      ghost var table, marks := buckets, history;
      var bucket := if key in buckets then buckets[key] else Bucket(0, now);
      if bucket.resetAt <= now {
        bucket := Bucket(0, now + WINDOW);
      }
      bucket := bucket.(failures := bucket.failures + 1);
      buckets := buckets[key := bucket];
      history := history + [Failure(key, now)];
      FailJustified(table, marks, key, bucket, now);
      if !evicted { FailExact(table, marks, key, bucket, now); }
    }

    method Succeed(key: string)
      requires Valid()
      modifies this
      ensures Valid() && history == old(history) + [Success(key)] && evicted == old(evicted) && clock == old(clock)
      ensures key !in buckets
    {
      hide Streak, WindowOf, LastWithin;
      ghost var table, marks := buckets, history;
      Smaller(buckets, key);
      buckets := buckets - {key};
      history := history + [Success(key)];
      forall other
        ensures Streak(history, other) == if other == key then [] else Streak(marks, other)
        ensures WindowOf(history, other) == if other == key then None else WindowOf(marks, other)
      {
        StreakSnoc(marks, Success(key), other);
        WindowSnoc(marks, Success(key), other);
      }
      forall other | !evicted
        ensures Live(buckets, other, clock) == LiveWindow(history, other, clock)
      {
        assert Live(table, other, clock) == LiveWindow(marks, other, clock);
      }
    }
  }

  lemma JustifiedAt(t: map<string, Bucket>, history: seq<Mark>, key: string)
    requires Justified(t, history) && key in t
    ensures LastWithin(Streak(history, key), t[key].failures, t[key].resetAt)
  {
  }

  lemma ExpiredDropped(t: map<string, Bucket>, key: string, now: int)
    requires key in t ==> t[key].resetAt <= now
    ensures OnlyExpiredGone(t, t - {key}, now) && Part(t, t - {key})
  {
  }

  lemma Smaller(m: map<string, Bucket>, key: string)
    ensures |m - {key}| == if key in m then |m| - 1 else |m|
  {
    if key in m {
      assert (m - {key}).Keys == m.Keys - {key};
      assert |(m - {key}).Keys| == |m.Keys| - 1;
    } else {
      assert m - {key} == m;
    }
  }

  lemma FailJustified(t: map<string, Bucket>, history: seq<Mark>, key: string, bucket: Bucket, now: int)
    requires Justified(t, history) && Opened(t, now)
    requires if key in t && t[key].resetAt > now then bucket == t[key].(failures := t[key].failures + 1)
             else bucket == Bucket(1, now + WINDOW)
    ensures Justified(t[key := bucket], history + [Failure(key, now)])
  {
    forall other | other in t[key := bucket]
      ensures LastWithin(Streak(history + [Failure(key, now)], other),
                         t[key := bucket][other].failures, t[key := bucket][other].resetAt)
    {
      StreakSnoc(history, Failure(key, now), other);
    }
  }

  lemma FailExact(t: map<string, Bucket>, history: seq<Mark>, key: string, bucket: Bucket, now: int)
    requires Exact(t, history, now)
    requires if key in t && t[key].resetAt > now then bucket == t[key].(failures := t[key].failures + 1)
             else bucket == Bucket(1, now + WINDOW)
    ensures Exact(t[key := bucket], history + [Failure(key, now)], now)
  {
    forall other
      ensures Live(t[key := bucket], other, now) == LiveWindow(history + [Failure(key, now)], other, now)
    {
      WindowSnoc(history, Failure(key, now), other);
      assert Live(t, other, now) == LiveWindow(history, other, now);
    }
  }

  /** At least eight failures of the key, with no success between or after them, in the five
      minutes before `end`. */
  predicate EightFailures(history: seq<Mark>, key: string, end: int) {
    exists n :: 8 <= n <= |Streak(history, key)| && LastWithin(Streak(history, key), n, end)
  }

  // ----- the Retry-After header -----

  /** The digits that are still to be written. */
  function Unwritten(rest: nat): string {
    if rest == 0 then "" else Itoa(rest)
  }

  lemma NextDigit(rest: nat, tail: string)
    requires rest > 0
    ensures Unwritten(rest) + tail == Unwritten(rest / 10) + ([DigitChar(rest % 10)] + tail) && |Unwritten(rest)| > 0
  {
    assert Itoa(rest) == Unwritten(rest / 10) + [DigitChar(rest % 10)];
  }

  lemma FitsTheBuffer(seconds: nat)
    requires seconds <= INT64_MAX
    ensures |Itoa(seconds)| <= 19 && Canonical(Itoa(seconds)) && Value(Itoa(seconds)) == seconds && Itoa(0) == "0"
  {
    hide Value;
    Pow10Nineteen();
    ItoaLength(seconds, 19);
    ItoaCanonical(seconds);
  }

  /** The decimal of a number that is not negative; twenty bytes are enough for every int64. */
  method FormatRetryAfter(seconds: int) returns (s: string)
    requires seconds <= INT64_MAX
    ensures s == if seconds < 0 then "" else Itoa(seconds)
    ensures seconds >= 0 ==> Canonical(s) && Value(s) == seconds
  {
    hide Itoa, Canonical, Value;
    if seconds >= 0 {
      FitsTheBuffer(seconds);
    }
    if seconds == 0 {
      return "0";
    }
    var buffer := new char[20];
    var index, rest := buffer.Length, seconds;
    while rest > 0
      invariant 0 <= index <= 20
      invariant seconds > 0 ==> rest >= 0 && Itoa(seconds) == Unwritten(rest) + buffer[index..]
      invariant seconds < 0 ==> rest == seconds && index == 20
      decreases rest
    {
      ghost var tail := buffer[index..];
      NextDigit(rest, tail);
      index := index - 1;
      buffer[index] := DigitChar(rest % 10);
      assert buffer[index..] == [DigitChar(rest % 10)] + tail;
      rest := rest / 10;
    }
    s := buffer[index..];
  }
}
