/** The PostgreSQL statements behind the event stream and the merchant, against the memory
    adapter: rows have no order of their own, and the merchant's effect is one upsert. */
module SqlEvidence {
  import opened Domain
  import opened Sequences
  import opened StoreSpec
  import Paging = MemoryRepository

  // ----- event pages -----

  function Limit(limit: int): int {
    if limit <= 0 || limit > 500 then 100 else limit
  }

  predicate Selected(rows: set<Event>, after: int, e: Event) {
    e in rows && e.sequence > after
  }

  /** What the page query may answer: rows after the cursor in ascending order, no more than
      the limit, and what is left out comes later and only because of the limit. */
  ghost predicate SelectedPage(rows: set<Event>, after: int, limit: int, page: seq<Event>) {
    && (forall i :: 0 <= i < |page| ==> Selected(rows, after, page[i]))
    && (forall i, j :: 0 <= i < j < |page| ==> page[i].sequence < page[j].sequence)
    && |page| <= Limit(limit)
    && (forall e :: Selected(rows, after, e) && e !in page ==>
          |page| == Limit(limit) && forall i :: 0 <= i < |page| ==> page[i].sequence < e.sequence)
  }

  /** The largest sequence, or zero where there is no row. */
  ghost predicate IsHighWater(rows: set<Event>, highWater: int) {
    if rows == {} then highWater == 0
    else (exists e :: e in rows && e.sequence == highWater) && forall e :: e in rows ==> e.sequence <= highWater
  }

  lemma RowAt(ledger: seq<Event>, e: Event)
    requires Numbered(ledger) && e in Elements(ledger)
    ensures 1 <= e.sequence <= |ledger| && e == ledger[e.sequence - 1]
  {
    var i :| 0 <= i < |ledger| && ledger[i] == e;
  }

  /** Entry i of the page is the i-th event after the cursor. */
  lemma {:induction false} PageAt(ledger: seq<Event>, after: int, limit: int, page: seq<Event>, i: nat)
    requires Numbered(ledger) && SelectedPage(Elements(ledger), after, limit, page) && i < |page|
    ensures var start := if after < 0 then 0 else after;
      start + i < |ledger| && page[i] == ledger[start + i]
  {
    var rows, start := Elements(ledger), if after < 0 then 0 else after;
    assert Selected(rows, after, page[i]);
    RowAt(ledger, page[i]);
    if i > 0 {
      PageAt(ledger, after, limit, page, i - 1);
      assert page[i - 1].sequence < page[i].sequence;
    }
    var expected := ledger[start + i];
    assert expected in rows && Selected(rows, after, expected);
    if expected in page {
      var j :| 0 <= j < |page| && page[j] == expected;
      if j < i {
        PageAt(ledger, after, limit, page, j);
      }
    }
  }

  /** The page ends at the limit or with the ledger. */
  lemma PageEnds(ledger: seq<Event>, after: int, limit: int, page: seq<Event>)
    requires Numbered(ledger) && SelectedPage(Elements(ledger), after, limit, page)
    ensures var start := if after < 0 then 0 else after;
      |page| == Limit(limit) || start + |page| >= |ledger|
  {
    var rows, n := Elements(ledger), |page|;
    var start := if after < 0 then 0 else after;
    if start + n < |ledger| {
      var next := ledger[start + n];
      assert Selected(rows, after, next);
      forall j | 0 <= j < n
        ensures page[j] != next
      {
        PageAt(ledger, after, limit, page, j);
      }
    }
  }

  lemma HighWaterIsLength(ledger: seq<Event>, highWater: int)
    requires Numbered(ledger) && IsHighWater(Elements(ledger), highWater)
    ensures highWater == |ledger|
  {
    var rows := Elements(ledger);
    if ledger == [] {
      assert rows == {};
    } else {
      assert ledger[|ledger| - 1] in rows;
      var e :| e in rows && e.sequence == highWater;
      RowAt(ledger, e);
    }
  }

  /** On a ledger numbered from one the statement has one answer, whatever order the rows are
      stored in: the page and the high water of the memory adapter. */
  lemma PagesAgree(ledger: seq<Event>, after: int, limit: int, page: seq<Event>, highWater: int)
    requires Numbered(ledger)
    requires SelectedPage(Elements(ledger), after, limit, page) && IsHighWater(Elements(ledger), highWater)
    ensures page == Paging.Slice(ledger, after, limit) && highWater == |ledger|
  {
    hide Elements, IsHighWater, Selected;
    HighWaterIsLength(ledger, highWater);
    PageEnds(ledger, after, limit, page);
    var start := if after < 0 then 0 else after;
    forall i | 0 <= i < |page|
      ensures start + i < |ledger| && page[i] == ledger[start + i]
    {
      PageAt(ledger, after, limit, page, i);
    }
    if page != [] {
      PageAt(ledger, after, limit, page, |page| - 1);
      assert page == ledger[start..start + |page|];
    }
    assert |page| <= Limit(limit);
  }

  // ----- merchant effects -----

  /** One upsert: a new effect is inserted, an old one keeps the greater sequence, and the
      adapter answers whether it was there. */
  function Upserted(effects: map<string, int>, effectID: string, sequence: int): (map<string, int>, bool) {
    var conflict := effectID in effects;
    var greatest := if conflict && effects[effectID] > sequence then effects[effectID] else sequence;
    (effects[effectID := greatest], conflict)
  }

  /** The upsert and the memory adapter keep the same effects and give the same answer, always. */
  lemma UpsertAgrees(effects: map<string, int>, effectID: string, sequence: int)
    ensures Upserted(effects, effectID, sequence) == ApplyEffect(effects, effectID, sequence)
  {
    if effectID in effects && sequence <= effects[effectID] {
      assert effects[effectID := effects[effectID]] == effects;
    }
  }
}
