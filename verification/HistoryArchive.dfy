// The bounded archive of canonical history: appending with retention, and paging backward
// through a fixed window while items are still being appended.
module HistoryArchives {
  import opened Basics
  import opened Journal

  datatype Item = Item(id: string, body: string)

  type Archived = Entry<Item>

  function Ids(items: seq<Archived>): (ids: seq<string>)
    ensures |ids| == |items| && forall k | 0 <= k < |ids| :: ids[k] == items[k].payload.id
  {
    Each(items, (item: Archived) => item.payload.id)
  }

  // ---- Appending, as a function of everything ever appended ----

  datatype Refused = InvalidProjection

  function Held(log: seq<Archived>, limits: Limits): seq<Archived> {
    Retained(log, 0, limits).entries
  }

  // An id must be fresh among the items that are still held when it arrives.
  predicate Fresh(log: seq<Archived>, item: Item, limits: Limits) {
    !Blank(item.id) && item.id !in Ids(Held(log, limits))
  }

  function Stored(log: seq<Archived>, item: Item, sizeOf: Item -> nat): Archived {
    Entry(|log| + 1, sizeOf(item), None, item)
  }

  function Appended(log: seq<Archived>, items: seq<Item>, limits: Limits,
                    sizeOf: Item -> nat): Result<seq<Archived>, Refused>
    decreases |items|
  {
    if items == [] then Ok(log)
    else if !Fresh(log, items[0], limits) then Err(InvalidProjection)
    else Appended(log + [Stored(log, items[0], sizeOf)], items[1..], limits, sizeOf)
  }

  // Two appends are one, and the second fails where the one would.
  lemma {:induction false} AppendTwice(log: seq<Archived>, xs: seq<Item>, ys: seq<Item>, limits: Limits,
                                       sizeOf: Item -> nat)
    ensures Appended(log, xs + ys, limits, sizeOf) ==
            match Appended(log, xs, limits, sizeOf)
            case Ok(mid) => Appended(mid, ys, limits, sizeOf)
            case Err(e) => Err(e)
    decreases |xs|
  {
    if xs == [] {
      assert xs + ys == ys;
    } else {
      assert (xs + ys)[1..] == xs[1..] + ys;
      if Fresh(log, xs[0], limits) { AppendTwice(log + [Stored(log, xs[0], sizeOf)], xs[1..], ys, limits, sizeOf); }
    }
  }

  lemma AppendedNext(log: seq<Archived>, items: seq<Item>, k: nat, now: seq<Archived>, limits: Limits,
                     sizeOf: Item -> nat)
    requires k < |items| && Appended(log, items[..k], limits, sizeOf) == Ok(now) && Fresh(now, items[k], limits)
    ensures Appended(log, items[..k + 1], limits, sizeOf) == Ok(now + [Stored(now, items[k], sizeOf)])
  {
    AppendTwice(log, items[..k], [items[k]], limits, sizeOf);
    assert items[..k + 1] == items[..k] + [items[k]];
    assert [items[k]][1..] == [];
  }

  // The items before the n-th are appended, and the n-th is refused.
  ghost predicate RefusedAt(log: seq<Archived>, items: seq<Item>, n: nat, now: seq<Archived>, limits: Limits,
                            sizeOf: Item -> nat)
    requires n < |items|
  {
    Appended(log, items[..n], limits, sizeOf) == Ok(now) && !Fresh(now, items[n], limits)
  }

  lemma RefusedThere(log: seq<Archived>, items: seq<Item>, n: nat, now: seq<Archived>, limits: Limits,
                     sizeOf: Item -> nat)
    requires n < |items| && RefusedAt(log, items, n, now, limits, sizeOf)
    ensures Appended(log, items, limits, sizeOf).Err?
  {
    AppendTwice(log, items[..n], items[n..], limits, sizeOf);
    assert items[..n] + items[n..] == items;
  }

  // The log grows by exactly the given items.
  lemma {:induction false} AppendedLog(log: seq<Archived>, items: seq<Item>, limits: Limits, sizeOf: Item -> nat)
    requires Numbered(log) && Appended(log, items, limits, sizeOf).Ok?
    ensures var next := Appended(log, items, limits, sizeOf).value;
            && Numbered(next) && |next| == |log| + |items| && log <= next
            && forall k | 0 <= k < |items| :: next[|log| + k].payload == items[k]
    decreases |items|
  {
    if items != [] {
      var more := log + [Stored(log, items[0], sizeOf)];
      AppendedLog(more, items[1..], limits, sizeOf);
      var next := Appended(log, items, limits, sizeOf).value;
      assert next[|log|] == more[|log|];
      forall k | 1 <= k < |items| ensures next[|log| + k].payload == items[k] {
        assert items[1..][k - 1] == items[k];
        assert next[|more| + (k - 1)].payload == items[1..][k - 1];
      }
    }
  }

  // The log with some items at its end, numbered on.
  function LogWith(log: seq<Archived>, items: seq<Item>, sizeOf: Item -> nat): seq<Archived> {
    log + seq(|items|, k requires 0 <= k < |items| => Entry(|log| + k + 1, sizeOf(items[k]), None, items[k]))
  }

  // An id that is not blank, and not held by the archive when it comes.
  predicate NewHere(log: seq<Archived>, item: Item, limits: Limits) {
    !Blank(item.id) && forall e | e in Retained(log, 0, limits).entries :: e.payload.id != item.id
  }

  lemma LogWithNext(log: seq<Archived>, items: seq<Item>, k: nat, limits: Limits, sizeOf: Item -> nat)
    requires k < |items|
    ensures LogWith(log, items[..k + 1], sizeOf) ==
            LogWith(log, items[..k], sizeOf) + [Stored(LogWith(log, items[..k], sizeOf), items[k], sizeOf)]
    ensures NewHere(LogWith(log, items[..k], sizeOf), items[k], limits) <==>
            Fresh(LogWith(log, items[..k], sizeOf), items[k], limits)
  {
    var held := Held(LogWith(log, items[..k], sizeOf), limits);
    assert forall j | 0 <= j < |held| :: Ids(held)[j] == held[j].payload.id;
  }

  // Items are appended exactly when each of them is new to the archive as it is when they come, and the log
  // then has them at its end.
  lemma {:induction false} AppendSucceeds(log: seq<Archived>, items: seq<Item>, n: nat, limits: Limits,
                                          sizeOf: Item -> nat)
    requires n <= |items|
    ensures Appended(log, items[..n], limits, sizeOf).Ok? <==>
              forall k | 0 <= k < n :: NewHere(LogWith(log, items[..k], sizeOf), items[k], limits)
    ensures Appended(log, items[..n], limits, sizeOf).Ok? ==>
              Appended(log, items[..n], limits, sizeOf).value == LogWith(log, items[..n], sizeOf)
  {
    if n == 0 {
      assert items[..0] == [] && LogWith(log, [], sizeOf) == log;
    } else {
      var k := n - 1;
      AppendSucceeds(log, items, k, limits, sizeOf);
      LogWithNext(log, items, k, limits, sizeOf);
      if Appended(log, items[..k], limits, sizeOf).Ok? {
        var now := LogWith(log, items[..k], sizeOf);
        if Fresh(now, items[k], limits) {
          AppendedNext(log, items, k, now, limits, sizeOf);
        } else {
          assert items[..n][..k] == items[..k];
          RefusedThere(log, items[..n], k, now, limits, sizeOf);
        }
      } else {
        AppendTwice(log, items[..k], [items[k]], limits, sizeOf);
        assert items[..n] == items[..k] + [items[k]];
      }
    }
  }

  ghost predicate Unique(items: seq<Archived>) {
    Distinct(Ids(items))
  }

  lemma UniqueSnoc(items: seq<Archived>, e: Archived)
    ensures Unique(items + [e]) <==> Unique(items) && e.payload.id !in Ids(items)
    ensures ToSet(Ids(items + [e])) == ToSet(Ids(items)) + {e.payload.id}
  {
    assert Ids(items + [e]) == Ids(items) + [e.payload.id];
    DistinctAppend(Ids(items), e.payload.id);
  }

  lemma UniqueTail(items: seq<Archived>)
    requires items != [] && Unique(items)
    ensures Unique(items[1..]) && ToSet(Ids(items[1..])) == ToSet(Ids(items)) - {items[0].payload.id}
  {
    var ids := Ids(items);
    assert Ids(items[1..]) == ids[1..];
    assert ids[0] !in ids[1..];
  }

  // The eviction loop of append, which also forgets the ids it lets go.
  method EvictOldest(items0: seq<Archived>, bytes0: nat, floor0: nat, limits: Limits, identities0: set<string>,
                     ghost all: seq<Archived>)
    returns (items: seq<Archived>, bytes: nat, floor: nat, identities: set<string>)
    requires floor0 <= |all| && items0 == all[floor0..] && bytes0 == Size(items0)
    requires forall g | 0 <= g < floor0 :: !Fits(all, g, limits)
    requires Unique(items0) && identities0 == ToSet(Ids(items0))
    ensures Window(items, bytes, floor) == Retained(all, 0, limits)
    ensures Unique(items) && identities == ToSet(Ids(items))
  {
    items, bytes, floor, identities := items0, bytes0, floor0, identities0;
    while |items| > limits.maxEvents || bytes > limits.maxBytes
      invariant floor <= |all| && items == all[floor..] && bytes == Size(items)
      invariant forall g | 0 <= g < floor :: !Fits(all, g, limits)
      invariant Unique(items) && identities == ToSet(Ids(items))
      decreases |items|
    {
      UniqueTail(items);
      assert items[1..] == all[floor + 1..];
      identities := identities - {items[0].payload.id};
      bytes := bytes - items[0].bytes;
      items, floor := items[1..], floor + 1;
    }
    KeepIs(all, 0, floor, limits);
  }

  method Push(items0: seq<Archived>, bytes0: nat, floor0: nat, limits: Limits, identities0: set<string>,
              stored: Archived, ghost log: seq<Archived>)
    returns (items: seq<Archived>, bytes: nat, floor: nat, identities: set<string>)
    requires Window(items0, bytes0, floor0) == Retained(log, 0, limits) && Unique(items0)
    requires identities0 == ToSet(Ids(items0)) + {stored.payload.id} && stored.payload.id !in Ids(items0)
    ensures Window(items, bytes, floor) == Retained(log + [stored], 0, limits)
    ensures Unique(items) && identities == ToSet(Ids(items))
  {
    Pushed(log, stored, limits);
    UniqueSnoc(items0, stored);
    items, bytes, floor, identities := EvictOldest(items0 + [stored], bytes0 + stored.bytes, floor0, limits,
      identities0, log + [stored]);
  }

  class HistoryArchive {
    const threadId: string
    const streamId: string
    const limits: Limits
    const sizeOf: Item -> nat
    var items: seq<Archived>
    var floor: nat
    var end: nat
    var bytes: nat
    // Every item ever appended.
    ghost var log: seq<Archived>

    // The archive holds the longest suffix of the log within both limits, and no id twice.
    ghost predicate Valid()
      reads this
    {
      && Numbered(log) && end == |log|
      && Window(items, bytes, floor) == Retained(log, 0, limits)
      && Unique(items)
    }

    constructor (threadId: string, streamId: string, limits: Limits, sizeOf: Item -> nat)
      ensures Valid() && log == [] && this.limits == limits && this.sizeOf == sizeOf
      ensures this.threadId == threadId && this.streamId == streamId
    {
      this.threadId, this.streamId, this.limits, this.sizeOf := threadId, streamId, limits, sizeOf;
      items, floor, end, bytes, log := [], 0, 0, 0, [];
    }

    // append. A refused append leaves the items before the refused one behind, so it is done on a copy.
    method Append(added: seq<Item>) returns (r: Result<nat, Refused>)
      requires Valid()
      modifies this
      ensures Valid()
      ensures Appended(old(log), added, limits, sizeOf).Ok? <==> r.Ok?
      ensures r.Ok? ==> log == Appended(old(log), added, limits, sizeOf).value && end - floor == |items| == r.value
      ensures r.Err? ==> exists n | 0 <= n < |added| :: RefusedAt(old(log), added, n, log, limits, sizeOf)
    {
      var identities := set k | 0 <= k < |items| :: items[k].payload.id;
      assert identities == ToSet(Ids(items));
      for k := 0 to |added|
        invariant Valid() && identities == ToSet(Ids(items))
        invariant Appended(old(log), added[..k], limits, sizeOf) == Ok(log)
      {
        if Blank(added[k].id) || added[k].id in identities {
          RefusedThere(old(log), added, k, log, limits, sizeOf);
          assert RefusedAt(old(log), added, k, log, limits, sizeOf);
          return Err(InvalidProjection);
        }
        AppendedNext(old(log), added, k, log, limits, sizeOf);
        identities := Store(added[k], identities + {added[k].id});
      }
      assert added[..|added|] == added;
      r := Ok(|items|);
    }

    // The body of the append loop: push one item and evict until both limits hold.
    method Store(item: Item, identities0: set<string>) returns (identities: set<string>)
      requires Valid() && identities0 == ToSet(Ids(items)) + {item.id} && item.id !in Ids(items)
      modifies this
      ensures Valid() && log == old(log) + [Stored(old(log), item, sizeOf)]
      ensures identities == ToSet(Ids(items))
    {
      var stored := Entry(end + 1, sizeOf(item), None, item);
      items, bytes, floor, identities := Push(items, bytes, floor, limits, identities0, stored, log);
      end, log := end + 1, log + [stored];
    }

    // prepare_append: the archive itself is only replaced when the whole publication succeeds.
    method PrepareAppend(added: seq<Item>) returns (next: HistoryArchive, ok: bool)
      requires Valid()
      ensures fresh(next) && next.limits == limits && next.sizeOf == sizeOf && next.threadId == threadId
              && next.streamId == streamId
      ensures ok <==> Appended(log, added, limits, sizeOf).Ok?
      ensures ok ==> next.Valid() && next.log == Appended(log, added, limits, sizeOf).value
    {
      next := new HistoryArchive(threadId, streamId, limits, sizeOf);
      next.items, next.floor, next.end, next.bytes := items, floor, end, bytes;
      next.log := log;
      var r := next.Append(added);
      ok := r.Ok?;
    }

    ghost function Seen(fits: (nat, nat, nat) -> bool): Sight
      reads this
    {
      Sight(Payloads(log), floor, fits)
    }

    // page: the answer to the opened window, or why it cannot be opened.
    method Page(position: Position, limit: nat,
                fits: (nat, nat, nat) -> bool) returns (r: Result<HistoryPage, PageError>)
      requires Valid() && 0 < limit
      ensures Seen(fits).Valid()
      ensures match Opening(threadId, streamId, end, position)
              case Err(e) => r == Err(e)
              case Ok((through, before)) => Answers(Seen(fits), before, through, limit, r)
    {
      var opening := Opening(threadId, streamId, end, position);
      if opening.Err? { return Err(opening.error); }
      var (through, before) := opening.value;
      WindowIsTail(log, limits);
      r := ReadPage(items, end, before, through, limit, Seen(fits), floor, fits);
    }
  }

  lemma WindowIsTail(log: seq<Archived>, limits: Limits)
    ensures var w := Retained(log, 0, limits);
            && |w.entries| == |log| - w.floor
            && forall k | 0 <= k < |w.entries| :: w.entries[k].payload == Payloads(log)[w.floor + k]
  {
  }

  lemma Pushed(log: seq<Archived>, e: Archived, limits: Limits)
    ensures var w := Retained(log, 0, limits);
            && (log + [e])[w.floor..] == w.entries + [e] && Size(w.entries + [e]) == w.bytes + e.bytes
            && forall g | 0 <= g < w.floor :: !Fits(log + [e], g, limits)
  {
    var w := Retained(log, 0, limits);
    SizeAppend(w.entries, e);
    EvictedStaysOut(log, e, 0, limits);
  }

  // ---- Backward paging ----

  // What one page call sees: the log so far, where the archive starts, and whether a page
  // from `start` to `before` within a window fits the page size.
  datatype Sight = Sight(log: seq<Item>, floor: nat, fits: (nat, nat, nat) -> bool) {
    predicate Valid() {
      floor <= |log|
    }
  }

  datatype PageError =
    | HistoryGap(requested: nat, floor: nat)
    | CursorInvalid
    | StreamReset
    | ResourceLimit(index: nat)

  // `next` is the authenticated cursor: the window's end and where the next page ends.
  datatype HistoryPage = HistoryPage(items: seq<Item>, start: nat, end: nat, through: nat, next: Option<(nat, nat)>)

  // The page grows downward until the floor, the item limit or the page size stops it.
  predicate PageStart(sight: Sight, start: nat, before: nat, through: nat, limit: nat) {
    && sight.floor <= start <= before && before - start <= limit
    && (forall s | start <= s < before :: sight.fits(s, before, through))
    && (start > sight.floor && before - start < limit ==> !sight.fits(start - 1, before, through))
  }

  // What a page call asks for: the newest items, those before an anchor, or the rest of a
  // window. A cursor token decodes to its claims, or to nothing when forged or expired.
  datatype Claims = Claims(threadId: string, streamId: string, through: nat, before: nat)

  datatype Position = Newest | BeforeAnchor(threadId: string, streamId: string, index: nat)
    | Cursor(claims: Option<Claims>)

  // The window's end and where this page ends.
  function Opening(threadId: string, streamId: string, end: nat, position: Position): Result<(nat, nat), PageError> {
    match position
    case Newest => Ok((end, end))
    case BeforeAnchor(thread, stream, index) =>
      if thread != threadId || stream != streamId then Err(StreamReset)
      else if index < end then Ok((index, index)) else Ok((end, end))
    case Cursor(None) => Err(CursorInvalid)
    case Cursor(Some(claims)) =>
      if claims.threadId != threadId then Err(CursorInvalid)
      else if claims.streamId != streamId then Err(StreamReset)
      else if claims.through > end then Err(CursorInvalid)
      else Ok((claims.through, claims.before))
  }

  // A page opens at the newest items, before an anchor of this stream, or at the rest of a window of this
  // stream that an authentic cursor names.
  lemma OpeningMeans(threadId: string, streamId: string, end: nat, position: Position)
    ensures position.Newest? ==> Opening(threadId, streamId, end, position) == Ok((end, end))
    ensures position.BeforeAnchor? ==>
              Opening(threadId, streamId, end, position) ==
              if position.threadId == threadId && position.streamId == streamId
              then Ok((Min(position.index, end), Min(position.index, end))) else Err(StreamReset)
    ensures position.Cursor? && position.claims.None? ==>
              Opening(threadId, streamId, end, position) == Err(CursorInvalid)
    ensures position.Cursor? && position.claims.Some? ==>
              var claims := position.claims.value;
              && (Opening(threadId, streamId, end, position) == Err(StreamReset) <==>
                    claims.threadId == threadId && claims.streamId != streamId)
              && (Opening(threadId, streamId, end, position) == Err(CursorInvalid) <==>
                    claims.threadId != threadId || (claims.streamId == streamId && claims.through > end))
              && (claims.threadId == threadId && claims.streamId == streamId && claims.through <= end ==>
                    Opening(threadId, streamId, end, position) == Ok((claims.through, claims.before)))
  {
  }

  // What the answer to an opened page must be.
  ghost predicate Answers(sight: Sight, before: nat, through: nat, limit: nat, r: Result<HistoryPage, PageError>)
    requires sight.Valid()
  {
    match r
    case Ok(page) =>
      && before <= through <= |sight.log| && page.end == before && page.through == through
      && PageStart(sight, page.start, before, through, limit)
      && page.items == sight.log[page.start..before]
      && page.next == (if page.start > sight.floor then Some((through, page.start)) else None)
      && (before > sight.floor ==> page.start < before)
    case Err(HistoryGap(requested, floor)) => requested == before < floor == sight.floor
    case Err(CursorInvalid) => sight.floor <= before && !(before <= through <= |sight.log|)
    case Err(ResourceLimit(index)) => sight.floor <= index == before - 1 && !sight.fits(index, before, through)
    case Err(StreamReset) => false
  }

  // page, once the cursor or anchor has been read.
  method ReadPage(held: seq<Archived>, end: nat, before: nat, through: nat, limit: nat, ghost sight: Sight, floor: nat,
                  fits: (nat, nat, nat) -> bool)
    returns (r: Result<HistoryPage, PageError>)
    requires sight.Valid() && sight.floor == floor && sight.fits == fits && end == |sight.log| && 0 < limit
    requires |held| == end - floor && forall k | 0 <= k < |held| :: held[k].payload == sight.log[floor + k]
    ensures Answers(sight, before, through, limit, r)
  {
    if before < floor { return Err(HistoryGap(before, floor)); }
    if before > through || through > end { return Err(CursorInvalid); }
    var start, items := before, [];
    while start > floor && |items| < limit
      invariant floor <= start <= before && items == sight.log[start..before] && before - start <= limit
      invariant forall s | start <= s < before :: fits(s, before, through)
    {
      var candidate := start - 1;
      if !fits(candidate, before, through) {
        if items == [] { return Err(ResourceLimit(candidate)); }
        break;
      }
      items := [held[candidate - floor].payload] + items;
      start := candidate;
    }
    r := Ok(HistoryPage(items, start, before, through, if start > floor then Some((through, start)) else None));
  }

  // A client pages backward: page k is read at moment k, from where page k - 1 started.
  ghost predicate PageAt(sights: seq<Sight>, pages: seq<HistoryPage>, k: nat, through: nat, limit: nat)
    requires k < |pages| == |sights|
  {
    var before := if k == 0 then through else pages[k - 1].start;
    && sights[k].Valid() && before <= through <= |sights[k].log|
    && PageStart(sights[k], pages[k].start, before, through, limit)
    && pages[k].items == sights[k].log[pages[k].start..before]
    && pages[k].next == (if pages[k].start > sights[k].floor then Some((through, pages[k].start)) else None)
    && (k > 0 ==> pages[k - 1].next == Some((through, before)))
    && (before > sights[k].floor ==> pages[k].start < before)
  }

  ghost predicate Evolves(sights: seq<Sight>) {
    forall k | 0 < k < |sights| :: EvolvesAt(sights, k)
  }

  ghost predicate EvolvesAt(sights: seq<Sight>, k: nat)
    requires 0 < k < |sights|
  {
    sights[k - 1].log <= sights[k].log && sights[k - 1].floor <= sights[k].floor
  }

  ghost predicate Walked(sights: seq<Sight>, pages: seq<HistoryPage>, through: nat, limit: nat) {
    && |sights| == |pages| && Evolves(sights)
    && forall k | 0 <= k < |pages| :: PageAt(sights, pages, k, through, limit)
  }

  // The pages in the order the client shows them: the last one read comes first.
  function Gathered(pages: seq<HistoryPage>): seq<Item> {
    if pages == [] then [] else pages[|pages| - 1].items + Gathered(pages[..|pages| - 1])
  }

  lemma {:induction false} LogsExtend(sights: seq<Sight>, k: nat)
    requires Evolves(sights) && k < |sights|
    ensures sights[0].log <= sights[k].log && sights[0].floor <= sights[k].floor
  {
    if k > 0 {
      LogsExtend(sights, k - 1);
      assert EvolvesAt(sights, k);
    }
  }

  // However much is appended or evicted meanwhile, the pages read so far are exactly the
  // window's tail, and a walk that is told there is no more has everything from the floor it met last.
  lemma {:induction false} WalkGathers(sights: seq<Sight>, pages: seq<HistoryPage>, through: nat, limit: nat)
    requires 0 < limit && pages != [] && Walked(sights, pages, through, limit)
    ensures var last := |pages| - 1;
            && through <= |sights[0].log|
            && pages[last].start <= through
            && Gathered(pages) == sights[0].log[pages[last].start..through]
            && (pages[last].next.None? ==> pages[last].start == sights[last].floor)
  {
    var last := |pages| - 1;
    assert PageAt(sights, pages, last, through, limit);
    if last == 0 {
      assert pages[..0] == [];
    } else {
      var sights', pages' := sights[..last], pages[..last];
      WalkedPrefix(sights, pages, through, limit);
      WalkGathers(sights', pages', through, limit);
      LogsExtend(sights, last);
      var start, before := pages[last].start, pages[last - 1].start;
      JoinSlices(sights[0].log, sights[last].log, start, before, through);
    }
  }

  // Every page goes further down than the one before it, except that a last one comes up empty when
  // the floor has reached the cursor.
  ghost predicate GoesDown(pages: seq<HistoryPage>) {
    forall k | 0 < k < |pages| :: GoesDownAt(pages, k)
  }

  predicate GoesDownAt(pages: seq<HistoryPage>, k: nat)
    requires 0 < k < |pages|
  {
    || pages[k].start < pages[k - 1].start
    || (k == |pages| - 1 && pages[k].start == pages[k - 1].start && pages[k].items == [])
  }

  lemma WalkGoesDown(sights: seq<Sight>, pages: seq<HistoryPage>, through: nat, limit: nat)
    requires Walked(sights, pages, through, limit)
    ensures GoesDown(pages)
  {
    forall k | 0 < k < |pages| ensures GoesDownAt(pages, k) {
      assert PageAt(sights, pages, k, through, limit);
      if k < |pages| - 1 { assert PageAt(sights, pages, k + 1, through, limit); }
    }
  }

  // So what the pages cover bounds their number, and their number what they cover.
  lemma {:induction false} WalkIsShort(sights: seq<Sight>, pages: seq<HistoryPage>, through: nat, limit: nat)
    requires pages != [] && Walked(sights, pages, through, limit)
    ensures var last := pages[|pages| - 1];
            && |pages| - 1 <= through - last.start <= |pages| * limit
            && (last.next.Some? ==> |pages| <= through - last.start)
    decreases |pages|
  {
    var last := |pages| - 1;
    assert PageAt(sights, pages, last, through, limit);
    if last > 0 {
      WalkedPrefix(sights, pages, through, limit);
      WalkIsShort(sights[..last], pages[..last], through, limit);
      assert |pages| * limit == last * limit + limit;
    }
  }

  lemma WalkedPrefix(sights: seq<Sight>, pages: seq<HistoryPage>, through: nat, limit: nat)
    requires |pages| > 1 && Walked(sights, pages, through, limit)
    ensures Walked(sights[..|pages| - 1], pages[..|pages| - 1], through, limit)
  {
    var last := |pages| - 1;
    forall k | 0 <= k < last ensures PageAt(sights[..last], pages[..last], k, through, limit) {
      assert PageAt(sights, pages, k, through, limit);
    }
    forall k | 0 < k < last ensures EvolvesAt(sights[..last], k) {
      assert EvolvesAt(sights, k);
    }
  }

  // ---- The walk over an archive that is being appended to ----

  // Appending never gives items back: the floor only rises.
  lemma {:induction false} FloorRises(log: seq<Archived>, items: seq<Item>, limits: Limits, sizeOf: Item -> nat)
    requires Appended(log, items, limits, sizeOf).Ok?
    ensures Retained(log, 0, limits).floor <= Retained(Appended(log, items, limits, sizeOf).value, 0, limits).floor
    decreases |items|
  {
    if items != [] {
      var more := log + [Stored(log, items[0], sizeOf)];
      EvictedStaysOut(log, Stored(log, items[0], sizeOf), 0, limits);
      FloorRises(more, items[1..], limits, sizeOf);
    }
  }

  // What a page call sees of an archive with a given log.
  function SightOf(log: seq<Archived>, limits: Limits, fits: (nat, nat, nat) -> bool): Sight {
    Sight(Payloads(log), Retained(log, 0, limits).floor, fits)
  }

  // One page call: the log it meets, the size check it makes, what it asks for, and its answer.
  datatype Call = Call(log: seq<Archived>, fits: (nat, nat, nat) -> bool, position: Position, page: HistoryPage)

  // The call is answered as `page` answers it.
  ghost predicate Answered(call: Call, threadId: string, streamId: string, limits: Limits, limit: nat) {
    match Opening(threadId, streamId, |call.log|, call.position)
    case Ok((through, before)) => Answers(SightOf(call.log, limits, call.fits), before, through, limit, Ok(call.page))
    case Err(_) => false
  }

  // A client follows the cursors it is given, and the archive is appended to between its calls.
  ghost predicate Served(calls: seq<Call>, added: seq<seq<Item>>, threadId: string, streamId: string, limits: Limits,
                         sizeOf: Item -> nat, limit: nat)
  {
    && calls != [] && |added| == |calls| && !calls[0].position.Cursor? && Numbered(calls[0].log)
    && (forall k | 0 <= k < |calls| :: Answered(calls[k], threadId, streamId, limits, limit))
    && (forall k | 0 < k < |calls| :: Follows(calls[k - 1], added[k], calls[k], threadId, streamId, limits, sizeOf))
  }

  ghost predicate Follows(was: Call, items: seq<Item>, now: Call, threadId: string, streamId: string, limits: Limits,
                          sizeOf: Item -> nat) {
    && was.page.next.Some?
    && now.position == Cursor(Some(Claims(threadId, streamId, was.page.next.value.0, was.page.next.value.1)))
    && Appended(was.log, items, limits, sizeOf) == Ok(now.log)
  }

  lemma AppendedEvolves(log: seq<Archived>, items: seq<Item>, next: seq<Archived>, limits: Limits, sizeOf: Item -> nat)
    requires Numbered(log) && Appended(log, items, limits, sizeOf) == Ok(next)
    ensures Numbered(next) && Payloads(log) <= Payloads(next)
    ensures Retained(log, 0, limits).floor <= Retained(next, 0, limits).floor
  {
    AppendedLog(log, items, limits, sizeOf);
    FloorRises(log, items, limits, sizeOf);
  }

  function SightsOf(calls: seq<Call>, limits: Limits): (sights: seq<Sight>)
    ensures |sights| == |calls|
    ensures forall k | 0 <= k < |calls| :: sights[k] == SightOf(calls[k].log, limits, calls[k].fits)
  {
    Each(calls, (call: Call) => SightOf(call.log, limits, call.fits))
  }

  function PagesOf(calls: seq<Call>): (pages: seq<HistoryPage>)
    ensures |pages| == |calls| && forall k | 0 <= k < |calls| :: pages[k] == calls[k].page
  {
    Each(calls, (call: Call) => call.page)
  }

  lemma {:induction false} ServedIsWalked(calls: seq<Call>, added: seq<seq<Item>>, threadId: string, streamId: string,
                                          limits: Limits, sizeOf: Item -> nat, limit: nat)
    requires Served(calls, added, threadId, streamId, limits, sizeOf, limit)
    ensures Walked(SightsOf(calls, limits), PagesOf(calls), calls[0].page.through, limit)
    ensures var last := calls[|calls| - 1]; Numbered(last.log) && last.page.through == calls[0].page.through
    decreases |calls|
  {
    var last := |calls| - 1;
    if last == 0 {
      FirstCall(calls[0], threadId, streamId, limits, limit);
      assert SightsOf(calls, limits) == [SightOf(calls[0].log, limits, calls[0].fits)]
             && PagesOf(calls) == [calls[0].page];
    } else {
      ServedPrefix(calls, added, threadId, streamId, limits, sizeOf, limit);
      ServedIsWalked(calls[..last], added[..last], threadId, streamId, limits, sizeOf, limit);
      ServedStep(calls, added, threadId, streamId, limits, sizeOf, limit);
      WalkedOn(SightsOf(calls, limits), PagesOf(calls), calls[0].page.through, limit);
    }
  }

  lemma ServedPrefix(calls: seq<Call>, added: seq<seq<Item>>, threadId: string, streamId: string, limits: Limits,
                     sizeOf: Item -> nat, limit: nat)
    requires Served(calls, added, threadId, streamId, limits, sizeOf, limit) && |calls| > 1
    ensures var last := |calls| - 1;
            && Served(calls[..last], added[..last], threadId, streamId, limits, sizeOf, limit)
            && SightsOf(calls, limits)[..last] == SightsOf(calls[..last], limits)
              && PagesOf(calls)[..last] == PagesOf(calls[..last])
            && calls[..last][0] == calls[0] && calls[..last][last - 1] == calls[last - 1]
  {
    var last := |calls| - 1;
    forall k | 0 < k < last
      ensures Follows(calls[..last][k - 1], added[..last][k], calls[..last][k], threadId, streamId, limits, sizeOf)
    {
      assert Follows(calls[k - 1], added[k], calls[k], threadId, streamId, limits, sizeOf);
    }
  }

  lemma ServedStep(calls: seq<Call>, added: seq<seq<Item>>, threadId: string, streamId: string, limits: Limits,
                   sizeOf: Item -> nat, limit: nat)
    requires Served(calls, added, threadId, streamId, limits, sizeOf, limit) && |calls| > 1
    requires Numbered(calls[|calls| - 2].log)
    ensures var was, now := calls[|calls| - 2], calls[|calls| - 1];
            var sights, pages := SightsOf(calls, limits), PagesOf(calls);
            && Numbered(now.log) && now.page.through == was.page.through
            && sights[|calls| - 2].log <= sights[|calls| - 1].log
              && sights[|calls| - 2].floor <= sights[|calls| - 1].floor
            && PageAt([sights[|calls| - 2], sights[|calls| - 1]], [pages[|calls| - 2], pages[|calls| - 1]], 1,
              was.page.through, limit)
  {
    var last := |calls| - 1;
    assert Follows(calls[last - 1], added[last], calls[last], threadId, streamId, limits, sizeOf);
    AppendedEvolves(calls[last - 1].log, added[last], calls[last].log, limits, sizeOf);
    NextCall(calls[last - 1], added[last], calls[last], threadId, streamId, limits, sizeOf, limit);
  }

  lemma FirstCall(call: Call, threadId: string, streamId: string, limits: Limits, limit: nat)
    requires Answered(call, threadId, streamId, limits, limit) && !call.position.Cursor?
    ensures PageAt([SightOf(call.log, limits, call.fits)], [call.page], 0, call.page.through, limit)
  {
  }

  lemma NextCall(was: Call, items: seq<Item>, now: Call, threadId: string, streamId: string, limits: Limits,
                 sizeOf: Item -> nat, limit: nat)
    requires Follows(was, items, now, threadId, streamId, limits, sizeOf)
    requires Answered(was, threadId, streamId, limits, limit) && Answered(now, threadId, streamId, limits, limit)
    ensures now.page.through == was.page.through
    ensures PageAt([SightOf(was.log, limits, was.fits), SightOf(now.log, limits, now.fits)], [was.page, now.page], 1,
              was.page.through, limit)
  {
  }

  // A walk grows by one page, read later.
  lemma WalkedOn(sights: seq<Sight>, pages: seq<HistoryPage>, through: nat, limit: nat)
    requires |sights| == |pages| > 1 && Walked(sights[..|pages| - 1], pages[..|pages| - 1], through, limit)
    requires var last := |pages| - 1;
             && sights[last - 1].log <= sights[last].log && sights[last - 1].floor <= sights[last].floor
             && PageAt([sights[last - 1], sights[last]], [pages[last - 1], pages[last]], 1, through, limit)
    ensures Walked(sights, pages, through, limit)
  {
    var last := |pages| - 1;
    var sights', pages' := sights[..last], pages[..last];
    forall k | 0 <= k < last ensures PageAt(sights, pages, k, through, limit) {
      assert PageAt(sights', pages', k, through, limit);
    }
    forall k | 0 < k < |sights| ensures EvolvesAt(sights, k) {
      if k < last { assert EvolvesAt(sights', k); }
    }
  }

  // So a client that follows its cursors while the archive is appended to has read exactly the tail of
  // its window, and once it is told there is no more, everything from the floor. It gets further with
  // every page but an empty last one, so it is told within one page more than its window has items.
  lemma ServedWalkGathers(calls: seq<Call>, added: seq<seq<Item>>, threadId: string, streamId: string, limits: Limits,
                          sizeOf: Item -> nat, limit: nat)
    requires 0 < limit && Served(calls, added, threadId, streamId, limits, sizeOf, limit)
    ensures var first, last := calls[0], calls[|calls| - 1];
            && last.page.start <= first.page.through <= |first.log|
            && Gathered(PagesOf(calls)) == Payloads(first.log)[last.page.start..first.page.through]
            && (last.page.next.None? ==> last.page.start == Retained(last.log, 0, limits).floor)
            && GoesDown(PagesOf(calls))
            && |calls| - 1 <= first.page.through - last.page.start <= |calls| * limit
  {
    ServedIsWalked(calls, added, threadId, streamId, limits, sizeOf, limit);
    WalkGathers(SightsOf(calls, limits), PagesOf(calls), calls[0].page.through, limit);
    WalkGoesDown(SightsOf(calls, limits), PagesOf(calls), calls[0].page.through, limit);
    WalkIsShort(SightsOf(calls, limits), PagesOf(calls), calls[0].page.through, limit);
  }

  // And its next call either is answered, or says that the floor has passed its cursor or that a
  // single item does not fit a page.
  lemma NextCallFails(was: Call, items: seq<Item>, log: seq<Archived>, fits: (nat, nat, nat) -> bool, threadId: string,
                      streamId: string, limits: Limits, sizeOf: Item -> nat, limit: nat, error: PageError)
    requires Answered(was, threadId, streamId, limits, limit) && was.page.next.Some? && Numbered(was.log)
    requires Appended(was.log, items, limits, sizeOf) == Ok(log)
    ensures var claims := Claims(threadId, streamId, was.page.next.value.0, was.page.next.value.1);
            var opening := Opening(threadId, streamId, |log|, Cursor(Some(claims)));
            && opening == Ok((was.page.through, was.page.start))
            && (Answers(SightOf(log, limits, fits), was.page.start, was.page.through, limit, Err(error)) ==>
                  (error.HistoryGap? && was.page.start < Retained(log, 0, limits).floor) || error.ResourceLimit?)
  {
    AppendedEvolves(was.log, items, log, limits, sizeOf);
  }
}
