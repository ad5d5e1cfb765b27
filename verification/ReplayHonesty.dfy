// The client's check against the daemon's answers: what passes the check is what some record could have
// answered.
module ReplayHonesty {
  import opened Basics
  import opened Interactions
  import opened Journal
  import opened Replay

  // A record of the thread answers with this page, when asked for as many events or fewer.
  ghost predicate Honest(shelf: Shelf, limit: nat, page: Page, params: Params) {
    && shelf.Valid() && shelf.current.threadId == params.threadId && params.Valid() && 1 <= limit <= params.limit
    && Answer(shelf, params.(limit := limit)) == Ok(page)
  }

  // A gap for a window that the record has not reached. No record answers that, but the check lets it pass.
  predicate Overreaches(page: Page) {
    page.gap.Some? && page.gap.value.reason == Retention && page.gap.value.current.seqNo < page.through.seqNo
  }

  // ---- A record that gives the answer ----

  function SomeEvent(stream: Cursor, n: SeqNo): Envelope {
    Envelope(stream.threadId, stream.(seqNo := n), Removed(Identity("t", "r"), "c"))
  }

  lemma SomeEventIsValid(stream: Cursor, n: SeqNo)
    requires stream.Valid() && n > 0
    ensures InStream(SomeEvent(stream, n), stream, n)
  {
    ShortText("t", MAX_ID_BYTES);
    ShortText("r", MAX_ID_BYTES);
    ShortText("c", MAX_ID_BYTES);
  }

  // A journal of the events given, and others up to `current`.
  function Filled(events: seq<Envelope>, floor: Cursor, current: Cursor): seq<Entry<Envelope>>
    requires floor.seqNo + |events| <= current.seqNo
  {
    seq(current.seqNo - floor.seqNo, k requires 0 <= k < current.seqNo - floor.seqNo =>
      Entry(floor.seqNo + k + 1, 0, None, if k < |events| then events[k] else SomeEvent(current, floor.seqNo + k + 1)))
  }

  lemma FilledIsValid(events: seq<Envelope>, floor: Cursor, current: Cursor)
    requires current.Valid() && floor.SameStream(current) && floor.seqNo + |events| <= current.seqNo
    requires forall k | 0 <= k < |events| :: InStream(events[k], current, floor.seqNo + k + 1)
    ensures Shelf(current, floor, Filled(events, floor, current)).Valid()
    ensures Payloads(Filled(events, floor, current))[..|events|] == events
  {
    var journal := Filled(events, floor, current);
    forall k | 0 <= k < |journal| ensures InStream(journal[k].payload, current, floor.seqNo + k + 1) {
      if k >= |events| { SomeEventIsValid(current, floor.seqNo + k + 1); }
    }
  }

  lemma GapIsHonest(page: Page, params: Params)
    requires ValidFor(page, params) && page.gap.Some? && !Overreaches(page)
    ensures exists shelf, limit :: Honest(shelf, limit, page, params)
  {
    var gap := page.gap.value;
    FilledIsValid([], gap.replayFloor, gap.current);
    var shelf := Shelf(gap.current, gap.replayFloor, Filled([], gap.replayFloor, gap.current));
    assert Honest(shelf, params.limit, page, params);
  }

  // The limit a record may have been asked with, to end the page where it ends.
  function EnoughFor(page: Page, params: Params): nat {
    if page.hasMore then |page.events| else params.limit
  }

  lemma PageFacts(page: Page, params: Params)
    requires ValidFor(page, params) && page.gap.None?
    ensures 1 <= params.limit && |page.events| <= params.limit && params.after.SameStream(page.through)
    ensures params.after.seqNo + |page.events| <= LAST_SEQ
    ensures page == Page(page.events, params.after.(seqNo := params.after.seqNo + |page.events|), page.through,
                         params.after.seqNo + |page.events| < page.through.seqNo, None)
    ensures page.hasMore ==> page.events != []
  {
  }

  lemma PageIsSlice(page: Page, params: Params, events: seq<Envelope>)
    requires 1 <= params.limit && |page.events| <= params.limit && params.after.seqNo <= page.through.seqNo
    requires params.after.seqNo + |page.events| <= LAST_SEQ
    requires page == Page(page.events, params.after.(seqNo := params.after.seqNo + |page.events|), page.through,
                          params.after.seqNo + |page.events| < page.through.seqNo, None)
    requires page.hasMore ==> page.events != []
    requires |events| == page.through.seqNo - params.after.seqNo && page.events <= events
    ensures 1 <= EnoughFor(page, params) <= params.limit
    ensures SlicePage(params.(limit := EnoughFor(page, params)), page.through, events, params.after.seqNo) == page
  {
    assert events[..|page.events|] == page.events;
  }

  lemma EventsInStream(page: Page, params: Params)
    requires ValidFor(page, params) && page.gap.None?
    ensures params.after.seqNo + |page.events| <= page.through.seqNo
    ensures forall k | 0 <= k < |page.events| :: InStream(page.events[k], page.through, params.after.seqNo + k + 1)
  {
    assert page.events != [] ==> page.events[|page.events| - 1].cursor.seqNo <= page.through.seqNo;
  }

  lemma EventsAreHonest(page: Page, params: Params)
    requires ValidFor(page, params) && page.gap.None?
    ensures exists shelf, limit :: Honest(shelf, limit, page, params)
  {
    EventsInStream(page, params);
    FilledIsValid(page.events, params.after, page.through);
    var journal := Filled(page.events, params.after, page.through);
    var shelf := Shelf(page.through, params.after, journal);
    assert page.events <= Payloads(journal);
    PageFacts(page, params);
    PageIsSlice(page, params, Payloads(journal));
    SliceIsHonest(shelf, EnoughFor(page, params), page, params);
  }

  lemma SliceIsHonest(shelf: Shelf, limit: nat, page: Page, params: Params)
    requires shelf.Valid() && params.Valid() && 1 <= limit <= params.limit && params.after.SameStream(shelf.current)
    requires shelf.floor == params.after && shelf.current.threadId == params.threadId
    requires params.(limit := limit).Through(shelf) == page.through == shelf.current
    requires SlicePage(params.(limit := limit), page.through, Payloads(shelf.journal), params.after.seqNo) == page
    ensures Honest(shelf, limit, page, params)
  {
    AnswerIsSlice(shelf, params.(limit := limit));
  }

  // The check accepts a page exactly when some record of the thread could have answered it, for the limit
  // asked for or a smaller one, or the page is a gap that overreaches.
  lemma AcceptsTheHonest(page: Page, params: Params)
    ensures ValidFor(page, params) && !Overreaches(page) <==> exists shelf, limit :: Honest(shelf, limit, page, params)
  {
    if shelf, limit :| Honest(shelf, limit, page, params) {
      AnswerIsValid(shelf, params.(limit := limit));
      assert ValidFor(page, params);
    }
    if ValidFor(page, params) && !Overreaches(page) {
      if page.gap.Some? { GapIsHonest(page, params); } else { EventsAreHonest(page, params); }
    }
  }
}
