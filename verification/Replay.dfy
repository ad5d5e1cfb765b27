// Fixed-window replay of an interaction stream: what the daemon answers, and what a
// client demands of the answer.
module Replay {
  import opened Basics
  import opened Interactions
  import opened Journal

  datatype Params = Params(threadId: string, after: Cursor, through: Option<Cursor>, limit: nat) {
    predicate Valid() {
      && ValidIdentity(threadId)
      && after.Valid()
      && after.threadId == threadId
      && (through.Some? ==>
            through.value.Valid() && after.SameStream(through.value) && after.seqNo <= through.value.seqNo)
      && 1 <= limit <= MAX_PAGE
    }

    // The end of the window: the caller's, or the record's cursor for a first page.
    function Through(shelf: Shelf): Cursor {
      if through.Some? then through.value else shelf.current
    }
  }

  datatype GapReason = Retention | StreamReset

  datatype Gap = Gap(reason: GapReason, requested: Cursor, replayFloor: Cursor, current: Cursor) {
    predicate Valid() {
      && requested.Valid() && replayFloor.Valid() && current.Valid()
      && requested.threadId == current.threadId
      && replayFloor.SameStream(current) && replayFloor.seqNo <= current.seqNo
      && (match reason
          case Retention => requested.SameStream(current) && requested.seqNo < replayFloor.seqNo
          case StreamReset => requested.streamId != current.streamId)
    }
  }

  datatype Page = Page(events: seq<Envelope>, resumeAfter: Cursor, through: Cursor, hasMore: bool, gap: Option<Gap>)

  // The page holds the events right after `after`, in order and without a hole.
  predicate Contiguous(events: seq<Envelope>, after: Cursor, through: SeqNo) {
    && after.seqNo + |events| <= LAST_SEQ
    && (forall k | 0 <= k < |events| ::
          events[k].Valid() && events[k].cursor == after.(seqNo := after.seqNo + k + 1)
            && events[k].cursor.seqNo <= through)
  }

  // What a client accepts: either a truthful gap and nothing else, or the next events of
  // the window, as many as the limit allows, with progress whenever more remain.
  predicate ValidFor(page: Page, params: Params) {
    && params.Valid() && page.resumeAfter.Valid() && page.through.Valid()
    && page.resumeAfter.threadId == params.threadId == page.through.threadId
    && match page.gap
       case Some(gap) =>
         && gap.Valid() && gap.requested == params.after
         && (gap.reason == Retention && params.through.Some? ==> page.through == params.through.value)
         && (gap.reason == Retention && params.through.None? ==> page.through == gap.current)
         && (gap.reason == StreamReset ==> page.through == gap.current)
         && page.events == [] && !page.hasMore && page.resumeAfter == params.after
       case None =>
         && (params.through.Some? ==> page.through == params.through.value)
         && params.after.SameStream(page.through) && params.after.seqNo <= page.through.seqNo
         && |page.events| <= params.limit
         && Contiguous(page.events, params.after, page.through.seqNo)
         && page.resumeAfter == params.after.(seqNo := params.after.seqNo + |page.events|)
         && (page.hasMore <==> page.resumeAfter.seqNo < page.through.seqNo)
         && (page.hasMore ==> page.events != [])
  }

  // The cursor walk of validate_for.
  method WalkEvents(events: seq<Envelope>, after: Cursor, through: SeqNo) returns (last: Option<Cursor>)
    requires after.Valid()
    ensures last.Some? <==> Contiguous(events, after, through)
    ensures last.Some? ==> last.value == after.(seqNo := after.seqNo + |events|)
  {
    var expected := after;
    for k := 0 to |events|
      invariant Contiguous(events[..k], after, through)
      invariant expected == after.(seqNo := after.seqNo + k)
    {
      var next := expected.Next();
      if !events[k].Valid() || next.Err? || events[k].cursor != next.value || events[k].cursor.seqNo > through {
        return None;
      }
      expected := next.value;
    }
    assert events[..|events|] == events;
    last := Some(expected);
  }

  // SubscribeInteractionsResult::validate_for
  method ValidateFor(page: Page, params: Params) returns (ok: bool)
    ensures ok <==> ValidFor(page, params)
  {
    if !params.Valid() || !page.resumeAfter.Valid() || !page.through.Valid() { return false; }
    if page.resumeAfter.threadId != params.threadId || page.through.threadId != params.threadId { return false; }
    if page.gap.Some? {
      var gap := page.gap.value;
      if !gap.Valid() || gap.requested != params.after { return false; }
      match gap.reason {
        case Retention =>
          if params.through.Some? && page.through != params.through.value { return false; }
          if params.through.None? && page.through != gap.current { return false; }
        case StreamReset =>
          if page.through != gap.current { return false; }
      }
      return page.events == [] && !page.hasMore && page.resumeAfter == params.after;
    }
    if params.through.Some? && page.through != params.through.value { return false; }
    if !params.after.SameStream(page.through) || params.after.seqNo > page.through.seqNo { return false; }
    if !page.resumeAfter.SameStream(page.through) || |page.events| > params.limit { return false; }
    var last := WalkEvents(page.events, params.after, page.through.seqNo);
    if last.None? || page.resumeAfter != last.value { return false; }
    if page.hasMore != (page.resumeAfter.seqNo < page.through.seqNo) { return false; }
    ok := !page.hasMore || page.events != [];
  }

  // ---- The daemon's side ----

  predicate InStream(e: Envelope, stream: Cursor, n: nat) {
    n <= LAST_SEQ && e.Valid() && e.cursor == stream.(seqNo := n)
  }

  // The part of a record that replay reads.
  datatype Shelf = Shelf(current: Cursor, floor: Cursor, journal: seq<Entry<Envelope>>) {
    // What every reachable record offers: the events floor+1 .. current, in order.
    predicate Valid() {
      && current.Valid() && floor.SameStream(current)
      && floor.seqNo + |journal| == current.seqNo
      && (forall k | 0 <= k < |journal| :: InStream(journal[k].payload, current, floor.seqNo + k + 1))
    }
  }

  // The first `limit` retained events after one sequence number and up to another.
  function Select(journal: seq<Entry<Envelope>>, after: nat, through: nat, limit: nat): seq<Envelope>
    decreases |journal|
  {
    if journal == [] || limit == 0 then []
    else
      var e := journal[0].payload;
      if after < e.cursor.seqNo <= through then [e] + Select(journal[1..], after, through, limit - 1)
      else Select(journal[1..], after, through, limit)
  }

  function GapPage(shelf: Shelf, params: Params, through: Cursor, reason: GapReason): Page {
    Page([], params.after, through, false, Some(Gap(reason, params.after, shelf.floor, shelf.current)))
  }

  // The page that replay builds from the events it selected.
  function EventPage(params: Params, through: Cursor, events: seq<Envelope>): Page {
    var resumeAfter := if events == [] then params.after else events[|events| - 1].cursor;
    Page(events, resumeAfter, through, resumeAfter.seqNo < through.seqNo, None)
  }

  // InteractionRecord::replay
  function Answer(shelf: Shelf, params: Params): Result<Page, string> {
    if !params.Valid() then Err("invalid parameters")
    else if params.after.streamId != shelf.current.streamId then Ok(GapPage(shelf, params, shelf.current, StreamReset))
    else if params.after.seqNo > shelf.current.seqNo then Err("cursor is ahead of the current cursor")
    else if params.through.Some? && params.through.value.streamId != shelf.current.streamId then
      Ok(GapPage(shelf, params, shelf.current, StreamReset))
    else if params.through.Some? && params.through.value.seqNo > shelf.current.seqNo then
      Err("high watermark is ahead of current")
    else
      var through := params.Through(shelf);
      if params.after.seqNo < shelf.floor.seqNo then Ok(GapPage(shelf, params, through, Retention))
      else Ok(EventPage(params, through, Select(shelf.journal, params.after.seqNo, through.seqNo, params.limit)))
  }

  ghost predicate NumberedFrom(journal: seq<Entry<Envelope>>, floor: nat) {
    forall k | 0 <= k < |journal| :: journal[k].payload.cursor.seqNo == floor + k + 1
  }

  lemma NumberedRest(journal: seq<Entry<Envelope>>, floor: nat)
    requires NumberedFrom(journal, floor) && journal != []
    ensures journal[0].payload.cursor.seqNo == floor + 1 && NumberedFrom(journal[1..], floor + 1)
    ensures Payloads(journal) == [journal[0].payload] + Payloads(journal[1..])
  {
    assert journal[0].payload.cursor.seqNo == floor + 0 + 1;
    forall k | 0 <= k < |journal[1..]| ensures journal[1..][k].payload.cursor.seqNo == floor + 1 + k + 1 {
      assert journal[1..][k] == journal[k + 1];
    }
  }

  // Entries at or below the cursor are skipped.
  lemma {:induction false} SelectSkips(journal: seq<Entry<Envelope>>, floor: nat, after: nat, through: nat, limit: nat)
    requires NumberedFrom(journal, floor) && floor <= after <= floor + |journal|
    ensures NumberedFrom(journal[after - floor..], after)
    ensures Payloads(journal)[after - floor..] == Payloads(journal[after - floor..])
    ensures Select(journal, after, through, limit) == Select(journal[after - floor..], after, through, limit)
    decreases |journal|
  {
    if floor < after {
      NumberedRest(journal, floor);
      SelectSkips(journal[1..], floor + 1, after, through, limit);
      assert journal[1..][after - floor - 1..] == journal[after - floor..];
    } else {
      assert journal[0..] == journal;
    }
  }

  // From there on the page fills until the window or the limit ends it.
  lemma {:induction false} SelectTakes(journal: seq<Entry<Envelope>>, floor: nat, after: nat, through: nat, limit: nat)
    requires NumberedFrom(journal, floor) && after <= floor && through <= floor + |journal|
    ensures var n := if through <= floor then 0 else Min(limit, through - floor);
            Select(journal, after, through, limit) == Payloads(journal)[..n]
    decreases |journal|
  {
    if journal != [] && limit > 0 {
      NumberedRest(journal, floor);
      SelectTakes(journal[1..], floor + 1, after, through, if floor < through then limit - 1 else limit);
    }
  }

  // On a contiguous journal, filtering and taking is slicing.
  lemma SelectIsSlice(journal: seq<Entry<Envelope>>, floor: nat, after: nat, through: nat, limit: nat)
    requires NumberedFrom(journal, floor) && floor <= after <= through <= floor + |journal|
    ensures Select(journal, after, through, limit) ==
            Payloads(journal)[after - floor..Min(through, after + limit) - floor]
  {
    SelectSkips(journal, floor, after, through, limit);
    SelectTakes(journal[after - floor..], after, after, through, limit);
    SliceOfSlice(Payloads(journal), after - floor, Min(limit, through - after));
  }

  lemma SliceOfSlice<T>(s: seq<T>, from: nat, n: nat)
    requires from + n <= |s|
    ensures s[from..][..n] == s[from..from + n]
  {
  }

  // The events of a window, cut from a log whose first event is base + 1.
  function SlicePage(params: Params, through: Cursor, events: seq<Envelope>, base: nat): Page
    requires base <= params.after.seqNo <= through.seqNo <= base + |events|
  {
    var to: SeqNo := Min(through.seqNo, params.after.seqNo + params.limit);
    Page(events[params.after.seqNo - base..to - base], params.after.(seqNo := to), through, to < through.seqNo, None)
  }

  lemma EventPageIsSlice(shelf: Shelf, params: Params, through: Cursor)
    requires shelf.Valid() && params.after.SameStream(shelf.current)
    requires shelf.floor.seqNo <= params.after.seqNo <= through.seqNo <= shelf.current.seqNo
    ensures EventPage(params, through, Select(shelf.journal, params.after.seqNo, through.seqNo, params.limit))
            == SlicePage(params, through, Payloads(shelf.journal), shelf.floor.seqNo)
  {
    SelectOnShelf(shelf, params.after.seqNo, through.seqNo, params.limit);
    var to := Min(through.seqNo, params.after.seqNo + params.limit);
    if params.after.seqNo < to { CursorAt(shelf, to); }
    LastOfSlice(params, through, Payloads(shelf.journal), shelf.floor.seqNo);
  }

  lemma SelectOnShelf(shelf: Shelf, after: nat, through: nat, limit: nat)
    requires shelf.Valid() && shelf.floor.seqNo <= after <= through <= shelf.current.seqNo
    ensures var floor := shelf.floor.seqNo;
            Select(shelf.journal, after, through, limit) ==
              Payloads(shelf.journal)[after - floor..Min(through, after + limit) - floor]
  {
    ShelfNumbered(shelf);
    SelectIsSlice(shelf.journal, shelf.floor.seqNo, after, through, limit);
  }

  // The cursor of a slice's last event is where the slice ends.
  lemma LastOfSlice(params: Params, through: Cursor, events: seq<Envelope>, base: nat)
    requires base <= params.after.seqNo <= through.seqNo <= base + |events|
    requires var to := Min(through.seqNo, params.after.seqNo + params.limit);
             params.after.seqNo < to ==> events[to - 1 - base].cursor == params.after.(seqNo := to)
    ensures var to := Min(through.seqNo, params.after.seqNo + params.limit);
            EventPage(params, through, events[params.after.seqNo - base..to - base]) ==
              SlicePage(params, through, events, base)
  {
  }

  lemma ShelfNumbered(shelf: Shelf)
    requires shelf.Valid()
    ensures NumberedFrom(shelf.journal, shelf.floor.seqNo)
  {
  }

  lemma CursorAt(shelf: Shelf, n: nat)
    requires shelf.Valid() && shelf.floor.seqNo < n <= shelf.current.seqNo
    ensures Payloads(shelf.journal)[n - 1 - shelf.floor.seqNo].cursor == shelf.current.(seqNo := n)
  {
    assert InStream(shelf.journal[n - 1 - shelf.floor.seqNo].payload, shelf.current, n);
  }

  // The answer of a reachable record: exactly the slice asked for, or the reason there is none.
  lemma AnswerIsSlice(shelf: Shelf, params: Params)
    requires shelf.Valid() && params.Valid() && params.after.SameStream(shelf.current)
    requires params.after.seqNo <= params.Through(shelf).seqNo <= shelf.current.seqNo
    ensures Answer(shelf, params) == Ok(
              if params.after.seqNo < shelf.floor.seqNo then GapPage(shelf, params, params.Through(shelf), Retention)
              else SlicePage(params, params.Through(shelf), Payloads(shelf.journal), shelf.floor.seqNo))
  {
    if shelf.floor.seqNo <= params.after.seqNo { EventPageIsSlice(shelf, params, params.Through(shelf)); }
  }

  // Whatever a client of the thread asks, an answer that is not an error passes its checks.
  lemma AnswerIsValid(shelf: Shelf, params: Params)
    requires shelf.Valid() && params.threadId == shelf.current.threadId
    ensures Answer(shelf, params).Ok? ==> ValidFor(Answer(shelf, params).value, params)
    ensures Answer(shelf, params).Ok? <==>
            && params.Valid()
            && (params.after.streamId == shelf.current.streamId ==>
                  && params.after.seqNo <= shelf.current.seqNo
                  && (params.through.Some? ==> params.through.value.seqNo <= shelf.current.seqNo))
  {
    if params.Valid() && params.after.streamId == shelf.current.streamId && Answer(shelf, params).Ok? {
      AnswerIsSlice(shelf, params);
    }
  }

  // ---- A client that pages through a fixed window ----

  // What the record has published when each page is asked for: a log that only grows, behind a
  // journal that keeps any suffix of it.
  datatype Moment = Moment(log: seq<Envelope>, shelf: Shelf) {
    ghost predicate Valid(stream: Cursor) {
      && shelf.Valid() && shelf.current.SameStream(stream)
      && |log| == shelf.current.seqNo
      && Payloads(shelf.journal) == log[shelf.floor.seqNo..]
    }
  }

  ghost predicate Evolving(moments: nat -> Moment, stream: Cursor) {
    && (forall i: nat :: moments(i).Valid(stream))
    && (forall i: nat :: GrowsAt(moments, i))
  }

  ghost predicate GrowsAt(moments: nat -> Moment, i: nat) {
    moments(i).log <= moments(i + 1).log
  }

  datatype Walked = Delivered(events: seq<Envelope>, pages: nat) | Lost(page: nat)

  // Page i is asked of moments(i); the next one resumes where it ended.
  function Walk(moments: nat -> Moment, i: nat, params: Params): Result<Walked, string>
    decreases if params.through.Some? then params.through.value.seqNo as int - params.after.seqNo else 0
  {
    match Answer(moments(i).shelf, params)
    case Err(e) => Err(e)
    case Ok(page) =>
      if page.gap.Some? then Ok(Lost(i))
      else if !page.hasMore then Ok(Delivered(page.events, 1))
      else if params.through.Some? && params.after.seqNo < page.resumeAfter.seqNo <= params.through.value.seqNo then
        match Walk(moments, i + 1, params.(after := page.resumeAfter))
        case Ok(Delivered(events, pages)) => Ok(Delivered(page.events + events, 1 + pages))
        case other => other
      else Err("no progress")
  }

  function NextParams(params: Params): Params
    requires params.after.seqNo + params.limit <= LAST_SEQ
  {
    params.(after := params.after.(seqNo := params.after.seqNo + params.limit))
  }

  // The page is the last of the walk: the window ends in it, or its cursor is lost.
  predicate EndsAt(m: Moment, params: Params)
    requires params.through.Some?
  {
    params.after.seqNo < m.shelf.floor.seqNo || params.through.value.seqNo <= params.after.seqNo + params.limit
  }

  ghost predicate WalksWell(moments: nat -> Moment, i: nat, params: Params)
    requires params.Valid() && params.through.Some? && params.through.value.seqNo <= |moments(i).log|
  {
    Walk(moments, i, params).Ok? && WalkedWell(moments, i, params, Walk(moments, i, params).value)
  }

  // A walk ends with exactly the window's events, each once and in order, in as few pages as the
  // limit allows, or with the gap of a page whose cursor the floor had passed.
  lemma {:induction false} WalkDelivers(moments: nat -> Moment, stream: Cursor, i: nat, params: Params)
    requires params.Valid() && params.through.Some? && params.after.SameStream(stream) && Evolving(moments, stream)
    requires params.through.value.seqNo <= |moments(i).log|
    ensures WalksWell(moments, i, params)
    decreases params.through.value.seqNo - params.after.seqNo
  {
    if EndsAt(moments(i), params) {
      WalkEnds(moments, stream, i, params);
    } else {
      assert GrowsAt(moments, i);
      NextValid(moments, i, params);
      WalkDelivers(moments, stream, i + 1, NextParams(params));
      WalkGoesOn(moments, stream, i, params);
    }
  }

  lemma NextValid(moments: nat -> Moment, i: nat, params: Params)
    requires params.Valid() && params.through.Some? && params.through.value.seqNo <= |moments(i).log|
    requires !EndsAt(moments(i), params) && moments(i).log <= moments(i + 1).log
    ensures NextParams(params).Valid() && params.through.value.seqNo <= |moments(i + 1).log|
  {
  }

  lemma WalkEnds(moments: nat -> Moment, stream: Cursor, i: nat, params: Params)
    requires params.Valid() && params.through.Some? && params.after.SameStream(stream) && moments(i).Valid(stream)
    requires params.through.value.seqNo <= |moments(i).log| && EndsAt(moments(i), params)
    ensures WalksWell(moments, i, params)
  {
    FirstPage(moments(i), stream, params);
  }

  lemma WalkGoesOn(moments: nat -> Moment, stream: Cursor, i: nat, params: Params)
    requires params.Valid() && params.through.Some? && params.after.SameStream(stream) && moments(i).Valid(stream)
    requires params.through.value.seqNo <= |moments(i).log| && !EndsAt(moments(i), params)
             && moments(i).log <= moments(i + 1).log
    requires NextParams(params).Valid() && WalksWell(moments, i + 1, NextParams(params))
    ensures WalksWell(moments, i, params)
  {
    FirstPage(moments(i), stream, params);
    WalkStep(moments, i, params, NextParams(params));
    OnePageMore(moments, i, params, NextParams(params), Walk(moments, i + 1, NextParams(params)).value);
  }

  ghost predicate WalkedWell(moments: nat -> Moment, i: nat, params: Params, walked: Walked)
    requires params.Valid() && params.through.Some? && params.through.value.seqNo <= |moments(i).log|
  {
    var after, through := params.after.seqNo, params.through.value.seqNo;
    match walked
    case Delivered(events, pages) =>
      events == moments(i).log[after..through] && 0 < pages && (pages - 1) * params.limit <= through - after
    case Lost(j) => i <= j && after + (j - i) * params.limit < moments(j).shelf.floor.seqNo
  }

  lemma OnePageMore(moments: nat -> Moment, i: nat, params: Params, next: Params, rest: Walked)
    requires params.Valid() && params.through.Some? && moments(i).log <= moments(i + 1).log
    requires params.after.seqNo + params.limit < params.through.value.seqNo <= |moments(i).log|
    requires next == params.(after := params.after.(seqNo := params.after.seqNo + params.limit))
    requires WalkedWell(moments, i + 1, next, rest)
    ensures rest.Delivered? ==>
      WalkedWell(moments, i, params,
                 Delivered(moments(i).log[params.after.seqNo..next.after.seqNo] + rest.events, 1 + rest.pages))
    ensures rest.Lost? ==> WalkedWell(moments, i, params, rest)
  {
    if rest.Delivered? {
      JoinSlices(moments(i).log, moments(i + 1).log, params.after.seqNo, next.after.seqNo, params.through.value.seqNo);
      assert (rest.pages + 1 - 1) * params.limit == (rest.pages - 1) * params.limit + params.limit;
    }
  }

  lemma FirstPage(m: Moment, stream: Cursor, params: Params)
    requires params.Valid() && params.through.Some? && params.after.SameStream(stream) && m.Valid(stream)
    requires params.through.value.seqNo <= |m.log|
    ensures Answer(m.shelf, params) == Ok(
              if params.after.seqNo < m.shelf.floor.seqNo then GapPage(m.shelf, params, params.through.value, Retention)
              else SlicePage(params, params.through.value, m.log, 0))
  {
    AnswerIsSlice(m.shelf, params);
    if m.shelf.floor.seqNo <= params.after.seqNo { Rebase(m.log, m.shelf.floor.seqNo, params, params.through.value); }
  }

  lemma Rebase(log: seq<Envelope>, floor: nat, params: Params, through: Cursor)
    requires floor <= params.after.seqNo <= through.seqNo <= |log|
    ensures SlicePage(params, through, log[floor..], floor) == SlicePage(params, through, log, 0)
  {
    var to := Min(through.seqNo, params.after.seqNo + params.limit);
    assert log[floor..][params.after.seqNo - floor..to - floor] == log[params.after.seqNo..to];
  }

  lemma WalkStep(moments: nat -> Moment, i: nat, params: Params, next: Params)
    requires params.through.Some? && params.after.seqNo + params.limit < params.through.value.seqNo <= |moments(i).log|
    requires 0 < params.limit && next == params.(after := params.after.(seqNo := params.after.seqNo + params.limit))
    requires Answer(moments(i).shelf, params) == Ok(SlicePage(params, params.through.value, moments(i).log, 0))
    requires Walk(moments, i + 1, next).Ok?
    ensures Walk(moments, i, params) == Ok(
              match Walk(moments, i + 1, next).value
              case Delivered(events, pages) =>
                Delivered(moments(i).log[params.after.seqNo..next.after.seqNo] + events, 1 + pages)
              case lost => lost)
  {
  }
}
