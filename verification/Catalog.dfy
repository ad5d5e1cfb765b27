// One owner's session catalog, listed in pages through a fixed window while sessions are added.
module Catalog {
  import opened Basics

  // A catalog entry: the ordinal a session was given when it was added.
  datatype Key = Key(ordinal: nat, threadId: string)

  predicate Ordered(entries: seq<Key>) {
    forall i, j | 0 <= i < j < |entries| :: entries[i].ordinal < entries[j].ordinal
  }

  // Ordinals are positive, increasing, and below the next one to give out.
  predicate Numbering(entries: seq<Key>, nextOrdinal: nat) {
    0 < nextOrdinal && Ordered(entries) && forall k | 0 <= k < |entries| :: 0 < entries[k].ordinal < nextOrdinal
  }

  // ---- Listing ----

  // The catalog when one page is read: its entries in ordinal order, and what fits a page.
  datatype Sight = Sight(generation: nat, nextOrdinal: nat, entries: seq<Key>, fits: seq<Key> -> bool) {
    predicate Valid() {
      Numbering(entries, nextOrdinal)
    }
  }

  datatype ListCursor = ListCursor(generation: nat, after: nat, through: nat)

  datatype ListError = CursorExpired | CursorInvalid | ResourceLimit

  datatype ListPage = ListPage(sessions: seq<Key>, next: Option<ListCursor>)

  // The entries after one ordinal and up to another.
  function Range(entries: seq<Key>, after: nat, through: nat): seq<Key> {
    if entries == [] then []
    else
      var rest := Range(entries[1..], after, through);
      if after < entries[0].ordinal <= through then [entries[0]] + rest else rest
  }

  function LastOrdinal(entries: seq<Key>): nat {
    if entries == [] then 0 else entries[|entries| - 1].ordinal
  }

  // The page takes candidates in order while the limit and the page size allow.
  ghost predicate PageOf(candidates: seq<Key>, limit: nat, fits: seq<Key> -> bool, page: seq<Key>) {
    && page <= candidates && |page| <= limit
    && (forall k | 0 < k <= |page| :: fits(candidates[..k]))
    && (|page| < |candidates| && |page| < limit ==> !fits(candidates[..|page| + 1]))
  }

  // Where a listing starts: at the front, or where a cursor left off in the same generation.
  function OpenWindow(sight: Sight, cursor: Option<ListCursor>): Result<ListCursor, ListError> {
    match cursor
    case None => Ok(ListCursor(sight.generation, 0, LastOrdinal(sight.entries)))
    case Some(c) =>
      if c.generation != sight.generation then Err(CursorExpired)
      else if c.through >= sight.nextOrdinal then Err(CursorInvalid)
      else Ok(c)
  }

  // What the answer to a listing call must be.
  ghost predicate Lists(sight: Sight, cursor: Option<ListCursor>, limit: nat, r: Result<ListPage, ListError>) {
    match OpenWindow(sight, cursor)
    case Err(e) => r == Err(e)
    case Ok(w) =>
      var candidates := Range(sight.entries, w.after, w.through);
      match r
      case Err(e) => e == ResourceLimit && candidates != [] && !sight.fits(candidates[..1])
      case Ok(page) =>
        && PageOf(candidates, limit, sight.fits, page.sessions)
        && (candidates != [] ==> page.sessions != [])
        && page.next == (if page.sessions == candidates then None
                         else Some(ListCursor(w.generation, LastOrdinal(page.sessions), w.through)))
  }

  // list_sessions, for a cursor that is authentic and not past its time
  method ListSessions(sight: Sight, cursor: Option<ListCursor>, limit: nat) returns (r: Result<ListPage, ListError>)
    requires sight.Valid() && 0 < limit
    ensures Lists(sight, cursor, limit, r)
  {
    var start := OpenWindow(sight, cursor);
    if start.Err? { return Err(start.error); }
    var w := start.value;
    var candidates := Range(sight.entries, w.after, w.through);
    var sessions := [];
    while |sessions| < |candidates| && |sessions| < limit
      invariant sessions <= candidates && |sessions| <= limit
      invariant forall k | 0 < k <= |sessions| :: sight.fits(candidates[..k])
      decreases |candidates| - |sessions|
    {
      var more := sessions + [candidates[|sessions|]];
      assert more == candidates[..|more|];
      if !sight.fits(more) {
        if sessions == [] { return Err(ResourceLimit); }
        break;
      }
      sessions := more;
    }
    var next := if |sessions| == |candidates| then None
      else Some(ListCursor(w.generation, LastOrdinal(sessions), w.through));
    r := Ok(ListPage(sessions, next));
  }

  lemma {:induction false} RangeAll(entries: seq<Key>, after: nat, through: nat)
    requires forall k | 0 <= k < |entries| :: after < entries[k].ordinal <= through
    ensures Range(entries, after, through) == entries
  {
    if entries != [] {
      forall k | 0 <= k < |entries[1..]| ensures after < entries[1..][k].ordinal <= through {
        assert entries[1..][k] == entries[k + 1];
      }
      RangeAll(entries[1..], after, through);
    }
  }

  lemma {:induction false} RangeConcat(a: seq<Key>, b: seq<Key>, after: nat, through: nat)
    ensures Range(a + b, after, through) == Range(a, after, through) + Range(b, after, through)
    decreases |a|
  {
    if a == [] {
      assert a + b == b;
    } else {
      assert (a + b)[1..] == a[1..] + b;
      RangeConcat(a[1..], b, after, through);
    }
  }

  lemma {:induction false} RangeNone(entries: seq<Key>, after: nat, through: nat)
    requires forall k | 0 <= k < |entries| :: !(after < entries[k].ordinal <= through)
    ensures Range(entries, after, through) == []
  {
    if entries != [] {
      forall k | 0 <= k < |entries[1..]| ensures !(after < entries[1..][k].ordinal <= through) {
        assert entries[1..][k] == entries[k + 1];
      }
      RangeNone(entries[1..], after, through);
    }
  }

  // The window that remains after n of the first page's entries, whatever was added since.
  lemma RangeAfter(first: seq<Key>, added: seq<Key>, n: nat)
    requires Ordered(first + added) && n <= |first|
    requires forall k | 0 <= k < |first| :: 0 < first[k].ordinal
    ensures Range(first + added, LastOrdinal(first[..n]), LastOrdinal(first)) == first[n..]
  {
    var all, after, through := first + added, LastOrdinal(first[..n]), LastOrdinal(first);
    var a, b := first[..n], first[n..];
    assert first == a + b;
    forall k | 0 <= k < |a| ensures !(after < a[k].ordinal <= through) {
      assert a[k] == all[k] && a[n - 1] == all[n - 1];
    }
    forall k | 0 <= k < |b| ensures after < b[k].ordinal <= through {
      assert b[k] == all[n + k] && first[|first| - 1] == all[|first| - 1];
      if n > 0 { assert a[n - 1] == all[n - 1]; }
    }
    forall k | 0 <= k < |added| ensures !(after < added[k].ordinal <= through) {
      assert added[k] == all[|first| + k];
      if first != [] { assert first[|first| - 1] == all[|first| - 1]; }
    }
    RangeNone(a, after, through);
    RangeAll(b, after, through);
    RangeNone(added, after, through);
    RangeConcat(a, b, after, through);
    RangeConcat(first, added, after, through);
  }

  // A multi-page walk: every page is read later than the one before, with its cursor.
  ghost predicate Later(was: Sight, now: Sight) {
    was.generation <= now.generation && (was.generation == now.generation ==> was.entries <= now.entries)
  }

  ghost predicate PageRead(sights: seq<Sight>, pages: seq<ListPage>, k: nat, limit: nat)
    requires k < |sights| == |pages|
  {
    && sights[k].Valid()
    && (k > 0 ==> pages[k - 1].next.Some?)
    && Lists(sights[k], if k == 0 then None else pages[k - 1].next, limit, Ok(pages[k]))
  }

  ghost predicate Walk(sights: seq<Sight>, pages: seq<ListPage>, limit: nat) {
    && |sights| == |pages|
    && (forall k | 0 < k < |sights| :: Later(sights[0], sights[k]))
    && (forall k | 0 <= k < |pages| :: PageRead(sights, pages, k, limit))
  }

  function Listed(pages: seq<ListPage>): seq<Key> {
    if pages == [] then [] else Listed(pages[..|pages| - 1]) + pages[|pages| - 1].sessions
  }

  // What n pages have listed of the catalog that the first one saw, and where the next one starts.
  ghost predicate ListedSoFar(first: Sight, listed: seq<Key>, n: nat, next: Option<ListCursor>) {
    && listed <= first.entries && |listed| >= (if first.entries == [] then 0 else n)
    && next == (if listed == first.entries then None
                else Some(ListCursor(first.generation, LastOrdinal(listed), LastOrdinal(first.entries))))
  }

  // A walk that is never told its cursor expired lists the first page's catalog from the front, in
  // ordinal order and without repeats, and runs out exactly when it has listed all of it.
  lemma {:induction false} WalkLists(sights: seq<Sight>, pages: seq<ListPage>, limit: nat)
    requires Walk(sights, pages, limit) && pages != [] && 0 < limit
    ensures ListedSoFar(sights[0], Listed(pages), |pages|, pages[|pages| - 1].next)
  {
    var last := |pages| - 1;
    assert PageRead(sights, pages, last, limit);
    if last == 0 {
      assert Listed(pages) == pages[0].sessions by { assert pages[..0] == []; }
      FirstPage(sights[0], pages[0], limit);
    } else {
      WalkPrefix(sights, pages, limit);
      WalkLists(sights[..last], pages[..last], limit);
      assert PageRead(sights, pages, 0, limit) && Later(sights[0], sights[last])
             && pages[..last][last - 1] == pages[last - 1];
      NextPage(sights[0], sights[last], Listed(pages[..last]), last, pages[last - 1].next, pages[last], limit);
    }
  }

  lemma FirstPage(first: Sight, page: ListPage, limit: nat)
    requires first.Valid() && Lists(first, None, limit, Ok(page))
    ensures ListedSoFar(first, page.sessions, 1, page.next)
  {
    assert LastOrdinal([]) == 0 && [] + page.sessions == page.sessions;
    OnePageMore(first, first, [], page.sessions);
  }

  lemma NextPage(first: Sight, now: Sight, listed: seq<Key>, n: nat, cursor: Option<ListCursor>, page: ListPage,
                 limit: nat)
    requires first.Valid() && now.Valid() && Later(first, now)
    requires cursor.Some? && ListedSoFar(first, listed, n, cursor) && Lists(now, cursor, limit, Ok(page))
    ensures ListedSoFar(first, listed + page.sessions, n + 1, page.next)
  {
    OnePageMore(first, now, listed, page.sessions);
  }

  lemma OnePageMore(first: Sight, now: Sight, listed: seq<Key>, page: seq<Key>)
    requires first.Valid() && now.Valid() && first.entries <= now.entries && listed <= first.entries
    requires page <= Range(now.entries, LastOrdinal(listed), LastOrdinal(first.entries))
    ensures var rest := Range(now.entries, LastOrdinal(listed), LastOrdinal(first.entries));
            && rest == first.entries[|listed|..]
            && listed + page <= first.entries
            && (listed + page == first.entries <==> page == rest)
            && (page != [] ==> LastOrdinal(listed + page) == LastOrdinal(page))
  {
    var added := now.entries[|first.entries|..];
    assert now.entries == first.entries + added && listed == first.entries[..|listed|];
    RangeAfter(first.entries, added, |listed|);
    assert first.entries == listed + first.entries[|listed|..];
  }

  lemma WalkPrefix(sights: seq<Sight>, pages: seq<ListPage>, limit: nat)
    requires Walk(sights, pages, limit) && |pages| > 1
    ensures Walk(sights[..|pages| - 1], pages[..|pages| - 1], limit)
  {
    var last := |pages| - 1;
    forall k | 0 <= k < last ensures PageRead(sights[..last], pages[..last], k, limit) {
      assert PageRead(sights, pages, k, limit);
    }
  }
}
