// The owner's catalog over time: sessions are added, become tombstones when they close, and
// are pruned by age, number and retained bytes.
module CatalogPruning {
  import opened Basics
  import opened Catalog

  // `closed` is the time a session closed and `bytes` what its record retains.
  datatype CatalogEntry = CatalogEntry(key: Key, closed: Option<nat>, bytes: nat)

  function Keys(entries: seq<CatalogEntry>): (keys: seq<Key>)
    ensures |keys| == |entries| && forall k | 0 <= k < |keys| :: keys[k] == entries[k].key
  {
    seq(|entries|, k requires 0 <= k < |entries| => entries[k].key)
  }

  datatype TombstoneLimits = TombstoneLimits(maxClosed: nat, maxBytes: nat, ttl: nat)

  // Oldest first, and by ordinal within one instant.
  predicate Older(a: CatalogEntry, b: CatalogEntry) {
    a.closed.Some? && b.closed.Some? &&
    (a.closed.value < b.closed.value || (a.closed.value == b.closed.value && a.key.ordinal < b.key.ordinal))
  }

  predicate ByAge(s: seq<CatalogEntry>) {
    (forall k | 0 <= k < |s| :: s[k].closed.Some?) && forall i, j | 0 <= i < j < |s| :: Older(s[i], s[j])
  }

  function InsertByAge(s: seq<CatalogEntry>, x: CatalogEntry): seq<CatalogEntry> {
    if s == [] then [x]
    else if Older(x, s[0]) then [x] + s
    else [s[0]] + InsertByAge(s[1..], x)
  }

  // The closed sessions of the catalog, sorted by age.
  function ClosedByAge(entries: seq<CatalogEntry>): seq<CatalogEntry> {
    if entries == [] then []
    else
      var rest := ClosedByAge(entries[1..]);
      if entries[0].closed.Some? then InsertByAge(rest, entries[0]) else rest
  }

  lemma {:induction false} InsertMembers(s: seq<CatalogEntry>, x: CatalogEntry)
    ensures multiset(InsertByAge(s, x)) == multiset(s) + multiset{x}
    ensures forall y :: y in InsertByAge(s, x) <==> y in s || y == x
  {
    if s != [] {
      assert s == [s[0]] + s[1..];
      if !Older(x, s[0]) { InsertMembers(s[1..], x); }
    }
  }

  lemma {:induction false} InsertSorts(s: seq<CatalogEntry>, x: CatalogEntry)
    requires ByAge(s) && x.closed.Some? && forall k | 0 <= k < |s| :: s[k].key.ordinal != x.key.ordinal
    ensures ByAge(InsertByAge(s, x))
  {
    if s != [] && !Older(x, s[0]) {
      InsertSorts(s[1..], x);
      InsertMembers(s[1..], x);
      var t := InsertByAge(s[1..], x);
      forall j | 0 <= j < |t| ensures Older(s[0], t[j]) {
        assert t[j] in t;
        if t[j] != x { OlderThanRest(s, t[j]); }
      }
      YoungestLast(s[0], t);
    }
  }

  lemma OlderThanRest(s: seq<CatalogEntry>, y: CatalogEntry)
    requires ByAge(s) && s != [] && y in s[1..]
    ensures Older(s[0], y)
  {
    var k :| 0 <= k < |s[1..]| && s[1..][k] == y;
    assert s[k + 1] == y;
  }

  lemma YoungestLast(x: CatalogEntry, t: seq<CatalogEntry>)
    requires x.closed.Some? && ByAge(t) && forall j | 0 <= j < |t| :: Older(x, t[j])
    ensures ByAge([x] + t)
  {
  }

  lemma OrdinalsRise(entries: seq<CatalogEntry>, x: CatalogEntry)
    requires Ordered(Keys(entries)) && entries != [] && x in entries[1..]
    ensures entries[0].key.ordinal < x.key.ordinal
  {
    var j :| 0 <= j < |entries[1..]| && entries[1..][j] == x;
    assert Keys(entries)[0].ordinal < Keys(entries)[j + 1].ordinal;
  }

  lemma AppendNumbers(entries: seq<CatalogEntry>, x: CatalogEntry, nextOrdinal: nat)
    requires Numbering(Keys(entries), nextOrdinal) && x.key.ordinal == nextOrdinal
    ensures Numbering(Keys(entries + [x]), nextOrdinal + 1)
  {
    assert Keys(entries + [x]) == Keys(entries) + [x.key];
  }

  lemma {:induction false} ClosedSorts(entries: seq<CatalogEntry>)
    requires Ordered(Keys(entries))
    ensures ByAge(ClosedByAge(entries))
    ensures multiset(ClosedByAge(entries)) == multiset(ClosedIn(entries))
  {
    if entries != [] {
      assert Keys(entries[1..]) == Keys(entries)[1..];
      ClosedSorts(entries[1..]);
      assert entries == [entries[0]] + entries[1..];
      var rest := ClosedByAge(entries[1..]);
      if entries[0].closed.Some? {
        forall k | 0 <= k < |rest| ensures rest[k].key.ordinal != entries[0].key.ordinal {
          assert rest[k] in multiset(rest);
          ClosedInEntries(entries[1..], rest[k]);
          OrdinalsRise(entries, rest[k]);
        }
        InsertSorts(rest, entries[0]);
        InsertMembers(rest, entries[0]);
      }
    }
  }

  function ClosedIn(entries: seq<CatalogEntry>): seq<CatalogEntry> {
    if entries == [] then []
    else (if entries[0].closed.Some? then [entries[0]] else []) + ClosedIn(entries[1..])
  }

  lemma {:induction false} ClosedInEntries(entries: seq<CatalogEntry>, x: CatalogEntry)
    ensures x in ClosedIn(entries) <==> x in entries && x.closed.Some?
  {
    if entries != [] { ClosedInEntries(entries[1..], x); }
  }

  predicate Expired(session: CatalogEntry, now: nat, ttl: nat) {
    session.closed.Some? && (if session.closed.value <= now then now - session.closed.value else 0) >= ttl
  }

  function ExpiredCount(closed: seq<CatalogEntry>, now: nat, ttl: nat): (e: nat)
    ensures e <= |closed|
  {
    if closed == [] || !Expired(closed[0], now, ttl) then 0 else 1 + ExpiredCount(closed[1..], now, ttl)
  }

  // In age order the expired tombstones are a prefix.
  lemma {:induction false} ExpiredPrefix(closed: seq<CatalogEntry>, now: nat, ttl: nat)
    requires ByAge(closed)
    ensures forall k | 0 <= k < |closed| :: Expired(closed[k], now, ttl) <==> k < ExpiredCount(closed, now, ttl)
  {
    if closed != [] {
      ExpiredPrefix(closed[1..], now, ttl);
      forall k | 0 < k < |closed| ensures Expired(closed[k], now, ttl) <==> k < ExpiredCount(closed, now, ttl) {
        assert closed[k] == closed[1..][k - 1];
        assert Older(closed[0], closed[k]);
      }
    }
  }

  function Without(entries: seq<CatalogEntry>, gone: seq<CatalogEntry>): seq<CatalogEntry> {
    if entries == [] then []
    else (if entries[0] in gone then [] else [entries[0]]) + Without(entries[1..], gone)
  }

  // ---- What a pruning takes ----

  function TotalBytes(closed: seq<CatalogEntry>): nat {
    if closed == [] then 0 else closed[0].bytes + TotalBytes(closed[1..])
  }

  predicate IsProtected(x: CatalogEntry, protected: Option<nat>) {
    protected == Some(x.key.ordinal)
  }

  // The tombstones a pruning may take, and the protected one, if it is closed.
  function Unprotected(closed: seq<CatalogEntry>, protected: Option<nat>): seq<CatalogEntry> {
    if closed == [] then []
    else
      var init, x := Unprotected(closed[..|closed| - 1], protected), closed[|closed| - 1];
      if IsProtected(x, protected) then init else init + [x]
  }

  function Shielded(closed: seq<CatalogEntry>, protected: Option<nat>): seq<CatalogEntry> {
    if closed == [] then []
    else
      var init, x := Shielded(closed[..|closed| - 1], protected), closed[|closed| - 1];
      if IsProtected(x, protected) then init + [x] else init
  }

  // What is left after taking `from` of the candidates, with what is shielded, is within the limits.
  predicate WithinLimits(candidates: seq<CatalogEntry>, from: nat, shielded: seq<CatalogEntry>, limits: TombstoneLimits)
    requires from <= |candidates|
  {
    && |candidates| - from + |shielded| <= limits.maxClosed
    && TotalBytes(candidates[from..]) + TotalBytes(shielded) <= limits.maxBytes
  }

  // How many more candidates go: as few as bring the rest within the limits, or all.
  function TakeUntil(candidates: seq<CatalogEntry>, from: nat, shielded: seq<CatalogEntry>,
                     limits: TombstoneLimits): (m: nat)
    requires from <= |candidates|
    ensures from <= m <= |candidates| && (m < |candidates| ==> WithinLimits(candidates, m, shielded, limits))
    ensures forall g | from <= g < m :: !WithinLimits(candidates, g, shielded, limits)
    decreases |candidates| - from
  {
    if from == |candidates| || WithinLimits(candidates, from, shielded, limits) then from
    else TakeUntil(candidates, from + 1, shielded, limits)
  }

  // The tombstones a pruning takes, oldest first.
  function Pruned(entries: seq<CatalogEntry>, now: nat, protected: Option<nat>,
                  limits: TombstoneLimits): seq<CatalogEntry> {
    var closed := ClosedByAge(entries);
    var candidates := Unprotected(closed, protected);
    candidates[..TakeUntil(candidates, ExpiredCount(candidates, now, limits.ttl), Shielded(closed, protected), limits)]
  }

  lemma {:induction false} FilterMembers(closed: seq<CatalogEntry>, protected: Option<nat>, x: CatalogEntry)
    ensures x in Unprotected(closed, protected) <==> x in closed && !IsProtected(x, protected)
    ensures x in Shielded(closed, protected) <==> x in closed && IsProtected(x, protected)
  {
    if closed != [] {
      assert closed == closed[..|closed| - 1] + [closed[|closed| - 1]];
      FilterMembers(closed[..|closed| - 1], protected, x);
    }
  }

  lemma {:induction false} FilterTotals(closed: seq<CatalogEntry>, protected: Option<nat>)
    ensures |closed| == |Unprotected(closed, protected)| + |Shielded(closed, protected)|
    ensures TotalBytes(closed) == TotalBytes(Unprotected(closed, protected)) + TotalBytes(Shielded(closed, protected))
  {
    if closed != [] {
      var init, x := closed[..|closed| - 1], closed[|closed| - 1];
      FilterTotals(init, protected);
      assert closed == init + [x];
      TotalSnoc(init, x);
      TotalSnoc(Unprotected(init, protected), x);
      TotalSnoc(Shielded(init, protected), x);
    }
  }

  lemma {:induction false} TotalSnoc(s: seq<CatalogEntry>, x: CatalogEntry)
    ensures TotalBytes(s + [x]) == TotalBytes(s) + x.bytes
  {
    if s != [] {
      assert (s + [x])[1..] == s[1..] + [x];
      TotalSnoc(s[1..], x);
    }
  }

  lemma TotalRest(s: seq<CatalogEntry>, k: nat)
    requires k < |s|
    ensures TotalBytes(s[k..]) == s[k].bytes + TotalBytes(s[k + 1..])
  {
    assert s[k..][1..] == s[k + 1..];
  }

  lemma {:induction false} UnprotectedByAge(closed: seq<CatalogEntry>, protected: Option<nat>)
    requires ByAge(closed)
    ensures ByAge(Unprotected(closed, protected))
  {
    if closed != [] {
      var init, x := closed[..|closed| - 1], closed[|closed| - 1];
      UnprotectedByAge(init, protected);
      var s := Unprotected(init, protected);
      forall k | 0 <= k < |s| ensures Older(s[k], x) {
        FilterMembers(init, protected, s[k]);
        var j :| 0 <= j < |init| && init[j] == s[k];
        assert Older(closed[j], closed[|closed| - 1]);
      }
      OldestFirst(s, x);
    }
  }

  lemma OldestFirst(s: seq<CatalogEntry>, x: CatalogEntry)
    requires ByAge(s) && x.closed.Some? && forall k | 0 <= k < |s| :: Older(s[k], x)
    ensures ByAge(s + [x])
  {
  }

  // The sources of a pruning: closed sessions by age, and the part of them it may take.
  lemma CandidateFacts(entries: seq<CatalogEntry>, protected: Option<nat>)
    requires Ordered(Keys(entries))
    ensures ByAge(ClosedByAge(entries)) && ByAge(Unprotected(ClosedByAge(entries), protected))
    ensures forall x :: x in Unprotected(ClosedByAge(entries), protected) <==>
              x in entries && x.closed.Some? && !IsProtected(x, protected)
  {
    var closed := ClosedByAge(entries);
    ClosedSorts(entries);
    UnprotectedByAge(closed, protected);
    forall x
      ensures x in Unprotected(closed, protected) <==> x in entries && x.closed.Some? && !IsProtected(x, protected)
    {
      FilterMembers(closed, protected, x);
      ClosedInEntries(entries, x);
      assert x in closed <==> x in multiset(closed);
    }
  }

  // Nothing expired is left to take, and the limits hold, or nothing is left to take at all.
  predicate Enough(candidates: seq<CatalogEntry>, from: nat, shielded: seq<CatalogEntry>, now: nat,
                   limits: TombstoneLimits)
    requires from <= |candidates|
  {
    && (forall k | from <= k < |candidates| :: !Expired(candidates[k], now, limits.ttl))
    && (from == |candidates| || WithinLimits(candidates, from, shielded, limits))
  }

  // Pruning takes the oldest unprotected closed sessions, as many as needed and no more; an open or a
  // protected session is never taken.
  lemma PruneIsMinimal(entries: seq<CatalogEntry>, now: nat, protected: Option<nat>, limits: TombstoneLimits)
    requires Ordered(Keys(entries))
    ensures var closed := ClosedByAge(entries);
            var candidates, shielded := Unprotected(closed, protected), Shielded(closed, protected);
            var gone := Pruned(entries, now, protected, limits);
            && ByAge(candidates) && gone <= candidates
            && Enough(candidates, |gone|, shielded, now, limits)
            && forall g | 0 <= g < |gone| :: !Enough(candidates, g, shielded, now, limits)
    ensures forall x | x in Pruned(entries, now, protected, limits) ::
              x in entries && x.closed.Some? && !IsProtected(x, protected)
  {
    var closed, gone := ClosedByAge(entries), Pruned(entries, now, protected, limits);
    var candidates := Unprotected(closed, protected);
    CandidateFacts(entries, protected);
    ExpiredPrefix(candidates, now, limits.ttl);
    var e := ExpiredCount(candidates, now, limits.ttl);
    forall g | 0 <= g < |gone| ensures !Enough(candidates, g, Shielded(closed, protected), now, limits) {
      if g < e { assert Expired(candidates[g], now, limits.ttl); }
    }
    forall x | x in gone ensures x in candidates {}
  }

  // ---- The catalog's operations ----

  // `expired` remembers the thread ids of the newest pruned sessions.
  datatype State = State(entries: seq<CatalogEntry>, generation: nat, nextOrdinal: nat, expired: seq<string>) {
    predicate Valid() {
      Numbering(Keys(entries), nextOrdinal)
    }
  }

  datatype Operation =
    | Insert(threadId: string, bytes: nat)
    | Close(index: nat, at: nat, retained: nat)
    | Prune(now: nat, protected: Option<nat>)

  function ThreadIds(entries: seq<CatalogEntry>): seq<string> {
    if entries == [] then [] else ThreadIds(entries[..|entries| - 1]) + [entries[|entries| - 1].key.threadId]
  }

  // The memory of pruned ids holds twice as many as there may be tombstones, and at least one.
  function Newest(ids: seq<string>, limits: TombstoneLimits): seq<string> {
    var bound := Max(2 * limits.maxClosed, 1);
    if |ids| <= bound then ids else ids[|ids| - bound..]
  }

  function Remember(expired: seq<string>, gone: seq<CatalogEntry>, limits: TombstoneLimits): seq<string> {
    if gone == [] then expired else Newest(expired + ThreadIds(gone), limits)
  }

  function After(c: State, op: Operation, limits: TombstoneLimits): State {
    match op
    case Insert(threadId, bytes) =>
      c.(entries := c.entries + [CatalogEntry(Key(c.nextOrdinal, threadId), None, bytes)],
        nextOrdinal := c.nextOrdinal + 1)
    case Close(index, at, retained) =>
      if index >= |c.entries| then c
      else c.(entries := c.entries[index := CatalogEntry(c.entries[index].key, Some(at), retained)])
    case Prune(now, protected) =>
      var gone := Pruned(c.entries, now, protected, limits);
      State(Without(c.entries, gone), c.generation + |gone|, c.nextOrdinal, Remember(c.expired, gone, limits))
  }

  function SightOf(c: State, fits: seq<Key> -> bool): Sight {
    Sight(c.generation, c.nextOrdinal, Keys(c.entries), fits)
  }

  // Whatever happens to the catalog, it only grows while its generation stays the same.
  ghost predicate Evolves(was: State, now: State) {
    && now.Valid() && was.generation <= now.generation && was.nextOrdinal <= now.nextOrdinal
    && (was.generation == now.generation ==> Keys(was.entries) <= Keys(now.entries))
  }

  lemma OperationEvolves(c: State, op: Operation, limits: TombstoneLimits)
    requires c.Valid()
    ensures Evolves(c, After(c, op, limits))
  {
    match op
    case Insert(threadId, bytes) =>
      var x := CatalogEntry(Key(c.nextOrdinal, threadId), None, bytes);
      AppendNumbers(c.entries, x, c.nextOrdinal);
      assert Keys(c.entries + [x]) == Keys(c.entries) + [x.key];
    case Close(index, at, retained) =>
      assert Keys(After(c, op, limits).entries) == Keys(c.entries);
    case Prune(now, protected) =>
      var gone := Pruned(c.entries, now, protected, limits);
      WithoutOrdered(c.entries, gone, c.nextOrdinal);
      if gone == [] { WithoutNone(c.entries); }
  }

  function AfterAll(c: State, ops: seq<Operation>, limits: TombstoneLimits): State {
    if ops == [] then c else After(AfterAll(c, ops[..|ops| - 1], limits), ops[|ops| - 1], limits)
  }

  lemma {:induction false} OperationsEvolve(c: State, ops: seq<Operation>, limits: TombstoneLimits)
    requires c.Valid()
    ensures Evolves(c, AfterAll(c, ops, limits))
  {
    if ops != [] {
      OperationsEvolve(c, ops[..|ops| - 1], limits);
      OperationEvolves(AfterAll(c, ops[..|ops| - 1], limits), ops[|ops| - 1], limits);
    }
  }

  // Pruning leaves every other entry where it is, and remembers as many of the newest pruned ids as it may.
  lemma PruneEffects(c: State, now: nat, protected: Option<nat>, limits: TombstoneLimits)
    requires c.Valid()
    ensures var next, gone := After(c, Prune(now, protected), limits), Pruned(c.entries, now, protected, limits);
            && (forall x :: x in next.entries <==> x in c.entries && x !in gone)
            && Numbering(Keys(next.entries), next.nextOrdinal) && next.nextOrdinal == c.nextOrdinal
            && next.generation == c.generation + |gone| && |ThreadIds(gone)| == |gone|
            && (forall k | 0 <= k < |gone| :: ThreadIds(gone)[k] == gone[k].key.threadId)
            && (gone == [] ==> next.expired == c.expired)
            && (gone != [] ==>
                  var all := c.expired + ThreadIds(gone);
                  next.expired == all[|all| - Min(|all|, Max(2 * limits.maxClosed, 1))..])
  {
    var gone := Pruned(c.entries, now, protected, limits);
    forall x ensures x in Without(c.entries, gone) <==> x in c.entries && x !in gone {
      WithoutMembers(c.entries, gone, x);
    }
    WithoutOrdered(c.entries, gone, c.nextOrdinal);
    ThreadIdsAre(gone);
    var all := c.expired + ThreadIds(gone);
    assert all[0..] == all;
  }

  lemma {:induction false} ThreadIdsAre(entries: seq<CatalogEntry>)
    ensures |ThreadIds(entries)| == |entries|
    ensures forall k | 0 <= k < |entries| :: ThreadIds(entries)[k] == entries[k].key.threadId
  {
    if entries != [] { ThreadIdsAre(entries[..|entries| - 1]); }
  }

  // ---- Listing a catalog that changes between the pages ----

  // One listing call: the catalog it meets, the size check it makes, its cursor and its answer.
  datatype Call = Call(catalog: State, fits: seq<Key> -> bool, cursor: Option<ListCursor>, page: ListPage)

  ghost predicate Follows(was: Call, ops: seq<Operation>, now: Call, limits: TombstoneLimits) {
    was.page.next.Some? && now.cursor == was.page.next && now.catalog == AfterAll(was.catalog, ops, limits)
  }

  // A client follows the cursors it is given, and the catalog is operated on between its calls.
  ghost predicate Served(calls: seq<Call>, between: seq<seq<Operation>>, limits: TombstoneLimits, limit: nat) {
    && calls != [] && |between| == |calls| && calls[0].cursor.None? && calls[0].catalog.Valid()
    && (forall k | 0 <= k < |calls| ::
      Lists(SightOf(calls[k].catalog, calls[k].fits), calls[k].cursor, limit, Ok(calls[k].page)))
    && (forall k | 0 < k < |calls| :: Follows(calls[k - 1], between[k], calls[k], limits))
  }

  lemma {:induction false} CallEvolves(calls: seq<Call>, between: seq<seq<Operation>>, limits: TombstoneLimits,
                                       limit: nat, k: nat)
    requires Served(calls, between, limits, limit) && k < |calls|
    ensures Evolves(calls[0].catalog, calls[k].catalog)
  {
    if k > 0 {
      CallEvolves(calls, between, limits, limit, k - 1);
      assert Follows(calls[k - 1], between[k], calls[k], limits);
      OperationsEvolve(calls[k - 1].catalog, between[k], limits);
    }
  }

  function SightsOf(calls: seq<Call>): (sights: seq<Sight>)
    ensures |sights| == |calls| && forall k | 0 <= k < |calls| :: sights[k] == SightOf(calls[k].catalog, calls[k].fits)
  {
    seq(|calls|, k requires 0 <= k < |calls| => SightOf(calls[k].catalog, calls[k].fits))
  }

  function PagesOf(calls: seq<Call>): (pages: seq<ListPage>)
    ensures |pages| == |calls| && forall k | 0 <= k < |calls| :: pages[k] == calls[k].page
  {
    Each(calls, (call: Call) => call.page)
  }

  // A cursor is honoured exactly as long as nothing has been pruned since it was given.
  lemma CursorHonoured(was: Call, ops: seq<Operation>, fits: seq<Key> -> bool, limits: TombstoneLimits, limit: nat)
    requires was.catalog.Valid() && was.page.next.Some?
    requires Lists(SightOf(was.catalog, was.fits), was.cursor, limit, Ok(was.page))
    ensures var now := AfterAll(was.catalog, ops, limits);
            OpenWindow(SightOf(now, fits), was.page.next) ==
              if now.generation == was.catalog.generation then Ok(was.page.next.value) else Err(CursorExpired)
  {
    OperationsEvolve(was.catalog, ops, limits);
    var keys := Keys(was.catalog.entries);
    if keys != [] { assert keys[|keys| - 1].ordinal < was.catalog.nextOrdinal; }
  }

  lemma CallIsRead(calls: seq<Call>, between: seq<seq<Operation>>, limits: TombstoneLimits, limit: nat, k: nat)
    requires Served(calls, between, limits, limit) && k < |calls|
    ensures PageRead(SightsOf(calls), PagesOf(calls), k, limit) && Later(SightsOf(calls)[0], SightsOf(calls)[k])
  {
    CallEvolves(calls, between, limits, limit, k);
    if k > 0 { assert Follows(calls[k - 1], between[k], calls[k], limits); }
  }

  // So a walk through any additions, closings and prunings, as long as its cursors are honoured, lists
  // exactly the sessions its first page met.
  lemma ServedWalkLists(calls: seq<Call>, between: seq<seq<Operation>>, limits: TombstoneLimits, limit: nat)
    requires Served(calls, between, limits, limit) && 0 < limit
    ensures ListedSoFar(SightOf(calls[0].catalog, calls[0].fits), Listed(PagesOf(calls)), |calls|,
              calls[|calls| - 1].page.next)
  {
    var sights, pages := SightsOf(calls), PagesOf(calls);
    forall k | 0 <= k < |calls| ensures PageRead(sights, pages, k, limit) && Later(sights[0], sights[k]) {
      CallIsRead(calls, between, limits, limit, k);
    }
    WalkLists(sights, pages, limit);
  }

  // ---- The catalog itself ----

  class OwnerCatalog {
    const limits: TombstoneLimits
    var entries: seq<CatalogEntry>
    var generation: nat
    var nextOrdinal: nat
    var expiredTombstones: seq<string>

    function View(): State
      reads this
    {
      State(entries, generation, nextOrdinal, expiredTombstones)
    }

    constructor (limits: TombstoneLimits)
      ensures View() == State([], 0, 1, []) && View().Valid() && this.limits == limits
    {
      this.limits := limits;
      entries, generation, nextOrdinal, expiredTombstones := [], 0, 1, [];
    }

    // The catalog's part of insert.
    method Add(threadId: string, bytes: nat)
      modifies this
      ensures View() == After(old(View()), Insert(threadId, bytes), limits)
      ensures entries == old(entries) + [CatalogEntry(Key(old(nextOrdinal), threadId), None, bytes)]
      ensures nextOrdinal == old(nextOrdinal) + 1 && generation == old(generation)
    {
      entries := entries + [CatalogEntry(Key(nextOrdinal, threadId), None, bytes)];
      nextOrdinal := nextOrdinal + 1;
    }

    // The catalog's part of complete_closed: the session becomes a tombstone in place.
    method MarkClosed(index: nat, at: nat, retained: nat)
      requires index < |entries|
      modifies this`entries
      ensures View() == After(old(View()), Close(index, at, retained), limits)
      ensures entries == old(entries)[index := CatalogEntry(old(entries)[index].key, Some(at), retained)]
    {
      entries := entries[index := CatalogEntry(entries[index].key, Some(at), retained)];
    }

    // The first loop of prune_owner: the expired tombstones, except a protected one.
    method CollectExpired(closed: seq<CatalogEntry>, now: nat,
                          protected: Option<nat>) returns (remove: seq<CatalogEntry>)
      requires ByAge(closed)
      ensures var candidates := Unprotected(closed, protected);
              remove == candidates[..ExpiredCount(candidates, now, limits.ttl)]
    {
      ghost var candidates := Unprotected(closed, protected);
      ghost var e := ExpiredCount(candidates, now, limits.ttl);
      UnprotectedByAge(closed, protected);
      ExpiredPrefix(candidates, now, limits.ttl);
      remove := [];
      ghost var j := 0;
      for k := 0 to |closed|
        invariant AtCandidate(closed, protected, k, j)
        invariant remove == candidates[..Min(j, e)]
      {
        NextCandidate(closed, protected, k, j);
        if IsProtected(closed[k], protected) { continue; }
        if Expired(closed[k], now, limits.ttl) { remove := remove + [closed[k]]; }
        j := j + 1;
      }
      assert closed[..|closed|] == closed;
    }

    // The second: the oldest of the rest, until count and bytes are within the limits.
    method CollectExcess(closed: seq<CatalogEntry>, expired: seq<CatalogEntry>, protected: Option<nat>, ghost e: nat)
      returns (remove: seq<CatalogEntry>)
      requires ByAge(closed) && e <= |Unprotected(closed, protected)| && expired == Unprotected(closed, protected)[..e]
      ensures var candidates := Unprotected(closed, protected);
              remove == candidates[..TakeUntil(candidates, e, Shielded(closed, protected), limits)]
    {
      ghost var candidates, shielded := Unprotected(closed, protected), Shielded(closed, protected);
      UnprotectedByAge(closed, protected);
      remove := expired;
      var count, bytes := |closed| - |expired|, TotalBytes(closed) - TotalBytes(expired);
      TrimStart(closed, protected, e, limits);
      ghost var n, j := e, 0;
      for k := 0 to |closed|
        invariant AtCandidate(closed, protected, k, j) && n == Max(e, j)
        invariant Trimmed(candidates, shielded, e, n, remove, count, bytes, limits)
      {
        if count <= limits.maxClosed && bytes <= limits.maxBytes {
          TrimDone(candidates, shielded, e, n, remove, count, bytes, limits);
          return;
        }
        NextCandidate(closed, protected, k, j);
        if IsProtected(closed[k], protected) { continue; }
        remove, count, bytes, n := TakeNext(closed[k], remove, count, bytes, limits, candidates, shielded, e, n, j);
        j := j + 1;
      }
      assert closed[..|closed|] == closed;
      TrimDone(candidates, shielded, e, n, remove, count, bytes, limits);
    }

    // prune_owner. Each removal is a new generation, so no cursor issued before survives it.
    method PruneOwner(now: nat, protected: Option<nat>)
      requires View().Valid()
      modifies this
      ensures View() == After(old(View()), Prune(now, protected), limits)
    {
      CandidateFacts(entries, protected);
      var closed := ClosedByAge(entries);
      var expired := CollectExpired(closed, now, protected);
      var remove := CollectExcess(closed, expired, protected,
        ExpiredCount(Unprotected(closed, protected), now, limits.ttl));
      RemoveAll(remove);
    }

    // The removal loop of prune_owner.
    method RemoveAll(remove: seq<CatalogEntry>)
      modifies this
      ensures entries == Without(old(entries), remove) && generation == old(generation) + |remove|
              && nextOrdinal == old(nextOrdinal)
      ensures expiredTombstones == Remember(old(expiredTombstones), remove, limits)
    {
      ghost var was, ids := entries, expiredTombstones;
      WithoutNone(was);
      for k := 0 to |remove|
        invariant entries == Without(was, remove[..k]) && generation == old(generation) + k
                  && nextOrdinal == old(nextOrdinal)
        invariant expiredTombstones == Remember(ids, remove[..k], limits)
      {
        RememberNext(ids, remove, k, limits);
        WithoutMore(was, remove[..k], remove[k]);
        assert remove[..k + 1] == remove[..k] + [remove[k]];
        entries, generation := Without(entries, [remove[k]]), generation + 1;
        expiredTombstones := Newest(expiredTombstones + [remove[k].key.threadId], limits);
      }
      assert remove[..|remove|] == remove;
    }
  }

  // The first k closed sessions hold the first j candidates.
  ghost predicate AtCandidate(closed: seq<CatalogEntry>, protected: Option<nat>, k: nat, j: nat) {
    && k <= |closed| && j <= |Unprotected(closed, protected)|
    && Unprotected(closed[..k], protected) == Unprotected(closed, protected)[..j]
  }

  // The k-th closed session is the next candidate, unless it is protected.
  lemma NextCandidate(closed: seq<CatalogEntry>, protected: Option<nat>, k: nat, j: nat)
    requires k < |closed| && AtCandidate(closed, protected, k, j)
    ensures if IsProtected(closed[k], protected) then AtCandidate(closed, protected, k + 1, j)
            else j < |Unprotected(closed, protected)| && Unprotected(closed, protected)[j] == closed[k]
                 && AtCandidate(closed, protected, k + 1, j + 1)
  {
    assert closed[..k + 1][..k] == closed[..k];
    UnprotectedPrefix(closed, protected, k + 1);
    var all, more := Unprotected(closed, protected), Unprotected(closed[..k + 1], protected);
    if !IsProtected(closed[k], protected) { assert more == all[..j] + [closed[k]] && all[..|more|] == more; }
  }

  // What the trimming loop holds after removing n candidates.
  ghost predicate Trimmed(candidates: seq<CatalogEntry>, shielded: seq<CatalogEntry>, e: nat, n: nat,
                          remove: seq<CatalogEntry>, count: int, bytes: int, limits: TombstoneLimits)
  {
    && e <= n <= |candidates| && remove == candidates[..n]
    && count == |candidates| - n + |shielded| && bytes == TotalBytes(candidates[n..]) + TotalBytes(shielded)
    && TakeUntil(candidates, e, shielded, limits) == TakeUntil(candidates, n, shielded, limits)
  }

  lemma TrimStart(closed: seq<CatalogEntry>, protected: Option<nat>, e: nat, limits: TombstoneLimits)
    requires e <= |Unprotected(closed, protected)|
    ensures var candidates, shielded := Unprotected(closed, protected), Shielded(closed, protected);
            Trimmed(candidates, shielded, e, e, candidates[..e], |closed| - e,
              TotalBytes(closed) - TotalBytes(candidates[..e]), limits)
  {
    FilterTotals(closed, protected);
    TotalSplit(Unprotected(closed, protected), e);
  }

  lemma TrimDone(candidates: seq<CatalogEntry>, shielded: seq<CatalogEntry>, e: nat, n: nat, remove: seq<CatalogEntry>,
                 count: int, bytes: int, limits: TombstoneLimits)
    requires Trimmed(candidates, shielded, e, n, remove, count, bytes, limits)
    requires n == |candidates| || (count <= limits.maxClosed && bytes <= limits.maxBytes)
    ensures remove == candidates[..TakeUntil(candidates, e, shielded, limits)]
  {
  }

  // One more of the closed sessions, the j-th candidate, goes unless it is taken already.
  method TakeNext(x: CatalogEntry, remove0: seq<CatalogEntry>, count0: int, bytes0: int, limits: TombstoneLimits,
                  ghost candidates: seq<CatalogEntry>, ghost shielded: seq<CatalogEntry>, ghost e: nat, ghost n0: nat,
                  ghost j: nat)
    returns (remove: seq<CatalogEntry>, count: int, bytes: int, ghost n: nat)
    requires Trimmed(candidates, shielded, e, n0, remove0, count0, bytes0, limits) && n0 == Max(e, j)
    requires ByAge(candidates) && j < |candidates| && candidates[j] == x
    requires count0 > limits.maxClosed || bytes0 > limits.maxBytes
    ensures Trimmed(candidates, shielded, e, n, remove, count, bytes, limits) && n == Max(e, j + 1)
  {
    InPrefix(candidates, j, n0);
    remove, count, bytes, n := remove0, count0, bytes0, n0;
    if x !in remove {
      TrimOne(candidates, shielded, e, n, remove, count, bytes, limits);
      remove, count, bytes, n := remove + [x], count - 1, bytes - x.bytes, n + 1;
    }
  }

  lemma TrimOne(candidates: seq<CatalogEntry>, shielded: seq<CatalogEntry>, e: nat, n: nat, remove: seq<CatalogEntry>,
                count: int, bytes: int, limits: TombstoneLimits)
    requires Trimmed(candidates, shielded, e, n, remove, count, bytes, limits) && n < |candidates|
    requires count > limits.maxClosed || bytes > limits.maxBytes
    ensures Trimmed(candidates, shielded, e, n + 1, remove + [candidates[n]], count - 1, bytes - candidates[n].bytes,
              limits)
  {
    TotalRest(candidates, n);
    assert candidates[..n] + [candidates[n]] == candidates[..n + 1];
  }

  lemma {:induction false} UnprotectedPrefix(closed: seq<CatalogEntry>, protected: Option<nat>, k: nat)
    requires k <= |closed|
    ensures Unprotected(closed[..k], protected) <= Unprotected(closed, protected)
    decreases |closed| - k
  {
    if k < |closed| {
      assert closed[..k + 1][..k] == closed[..k];
      UnprotectedPrefix(closed, protected, k + 1);
    } else {
      assert closed[..k] == closed;
    }
  }

  lemma {:induction false} TotalSplit(s: seq<CatalogEntry>, n: nat)
    requires n <= |s|
    ensures TotalBytes(s) == TotalBytes(s[..n]) + TotalBytes(s[n..])
  {
    if n > 0 {
      assert s[1..][..n - 1] == s[..n][1..] && s[1..][n - 1..] == s[n..];
      TotalSplit(s[1..], n - 1);
    } else {
      assert s[0..] == s;
    }
  }

  lemma RememberNext(ids: seq<string>, remove: seq<CatalogEntry>, k: nat, limits: TombstoneLimits)
    requires k < |remove|
    ensures Remember(ids, remove[..k + 1], limits) ==
            Newest(Remember(ids, remove[..k], limits) + [remove[k].key.threadId], limits)
  {
    var done, id := remove[..k], remove[k].key.threadId;
    assert remove[..k + 1][..k] == done;
    assert ids + (ThreadIds(done) + [id]) == ids + ThreadIds(done) + [id];
    if k == 0 { assert ids + ThreadIds(done) == ids; } else { NewestSnoc(ids + ThreadIds(done), id, limits); }
  }

  // Forgetting the oldest id at each step is forgetting all but the newest at the end.
  lemma NewestSnoc(ids: seq<string>, id: string, limits: TombstoneLimits)
    ensures Newest(Newest(ids, limits) + [id], limits) == Newest(ids + [id], limits)
  {
  }

  lemma InPrefix(closed: seq<CatalogEntry>, k: nat, n: nat)
    requires ByAge(closed) && k < |closed| && n <= |closed|
    ensures closed[k] in closed[..n] <==> k < n
  {
    if k < n { assert closed[..n][k] == closed[k]; }
  }

  lemma {:induction false} WithoutNone(entries: seq<CatalogEntry>)
    ensures Without(entries, []) == entries
  {
    if entries != [] { WithoutNone(entries[1..]); }
  }

  lemma {:induction false} WithoutMore(entries: seq<CatalogEntry>, gone: seq<CatalogEntry>, x: CatalogEntry)
    ensures Without(Without(entries, gone), [x]) == Without(entries, gone + [x])
  {
    if entries != [] {
      WithoutMore(entries[1..], gone, x);
      var e, rest := entries[0], Without(entries[1..], gone);
      assert e in gone + [x] <==> e in gone || e == x;
      if e in gone {
        assert Without(entries, gone) == rest;
      } else {
        assert Without(entries, gone) == [e] + rest && ([e] + rest)[0] == e && ([e] + rest)[1..] == rest;
        assert e in [x] <==> e == x;
      }
    }
  }

  lemma {:induction false} WithoutMembers(entries: seq<CatalogEntry>, gone: seq<CatalogEntry>, x: CatalogEntry)
    ensures x in Without(entries, gone) <==> x in entries && x !in gone
  {
    if entries != [] { WithoutMembers(entries[1..], gone, x); }
  }

  lemma PrependNumbers(x: CatalogEntry, rest: seq<CatalogEntry>, nextOrdinal: nat)
    requires Numbering(Keys(rest), nextOrdinal) && 0 < x.key.ordinal < nextOrdinal
    requires forall k | 0 <= k < |rest| :: x.key.ordinal < rest[k].key.ordinal
    ensures Numbering(Keys([x] + rest), nextOrdinal)
  {
    assert Keys([x] + rest) == [x.key] + Keys(rest);
  }

  lemma {:induction false} WithoutOrdered(entries: seq<CatalogEntry>, gone: seq<CatalogEntry>, nextOrdinal: nat)
    requires Numbering(Keys(entries), nextOrdinal)
    ensures Numbering(Keys(Without(entries, gone)), nextOrdinal)
  {
    if entries != [] {
      var rest := Without(entries[1..], gone);
      TailNumbers(entries, nextOrdinal);
      WithoutOrdered(entries[1..], gone, nextOrdinal);
      RestRises(entries, gone);
      assert Keys(entries)[0] == entries[0].key;
      PrependNumbers(entries[0], rest, nextOrdinal);
    }
  }

  lemma TailNumbers(entries: seq<CatalogEntry>, nextOrdinal: nat)
    requires entries != [] && Numbering(Keys(entries), nextOrdinal)
    ensures Numbering(Keys(entries[1..]), nextOrdinal)
  {
    assert Keys(entries[1..]) == Keys(entries)[1..];
  }

  lemma RestRises(entries: seq<CatalogEntry>, gone: seq<CatalogEntry>)
    requires entries != [] && Ordered(Keys(entries))
    ensures forall x | x in Without(entries[1..], gone) :: entries[0].key.ordinal < x.key.ordinal
  {
    forall x | x in Without(entries[1..], gone) ensures entries[0].key.ordinal < x.key.ordinal {
      WithoutMembers(entries[1..], gone, x);
      OrdinalsRise(entries, x);
    }
  }
}
