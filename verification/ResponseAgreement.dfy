// What every run of the registry's steps keeps: the leader, its followers, the continuation
// and the log agree on each response, and the snapshot shows what is still undecided.
module ResponseAgreement {
  import opened Basics
  import opened CanonicalJson
  import opened Interactions
  import opened Convergence
  import opened ResponseSteps

  // ---- The published stream ----

  ghost predicate StreamOk(enabled: bool, s: Stream) {
    && Genuine(s.first, s.log)
    && s.snapshot.threadId == s.first.threadId
    && |s.log| <= LAST_SEQ && s.snapshot.cursor == s.first.cursor.(seqNo := |s.log|)
    && (|s.log| < LAST_SEQ ==> StateAt(s.first, s.log) == Some(s.snapshot))
    && (!enabled ==> s.log == [])
  }

  // Cursor space is left.
  predicate Room(s: Stream) {
    |s.log| < LAST_SEQ
  }

  // While cursor space is left, an event is committed exactly when it fits the pending set.
  predicate FitsIn(pending: seq<Pending>, payload: Payload) {
    match payload
    case Requested(p) => p.id !in IdsOf(pending) && CountTurn(pending, p.id.turnId) < MAX_PENDING_PER_RUN
    case Removed(id, _) => id in IdsOf(pending)
  }

  ghost predicate ShowsAfter(was: seq<Pending>, now: seq<Pending>, payload: Payload) {
    forall id :: id in IdsOf(now) <==> if id == payload.Subject() then payload.Requested? else id in IdsOf(was)
  }

  lemma CommitMeaning(s: Stream, payload: Payload)
    requires StreamOk(true, s) && payload.Valid()
    ensures Commit(s, payload).Some? <==> Room(s) && FitsIn(s.snapshot.pending, payload)
    ensures Commit(s, payload).Some? ==>
      var next := Commit(s, payload).value;
      && StreamOk(true, next) && |next.log| == |s.log| + 1 && s.log <= next.log && next.log[|s.log|].payload == payload
      && ShowsAfter(s.snapshot.pending, next.snapshot.pending, payload)
  {
    if Room(s) {
      StateFacts(s.first, s.log);
      var e := Envelope(s.snapshot.threadId, s.snapshot.cursor.Next().value, payload);
      ApplyMeaning(s.snapshot, e);
      if Apply(s.snapshot, e).Applied? {
        assert (s.log + [e])[..|s.log|] == s.log;
        if payload.Requested? { IdsAdd(s.snapshot.pending, payload.interaction); }
      }
    }
  }

  // ---- Entries, continuations and leaders ----

  predicate EntryOk(r: Registry, id: Identity) {
    id in r.entries ==>
      var e := r.entries[id];
      && id.Valid()
      && e.generation in r.tickets && r.tickets[e.generation].id == id
      && match e
         case Waiting(_, g, _) => g !in r.leaders && r.tickets[g].mail.Empty?
         case Resolved(digest, g, _) =>
           g in r.leaders && r.leaders[g].id == id && r.leaders[g].digest == digest && r.leaders[g].stage != Done(false)
  }

  predicate LeaderOk(r: Registry, g: SeqNo) {
    g in r.leaders ==>
      var leader := r.leaders[g];
      && g in r.tickets && r.tickets[g].id == leader.id && leader.id.Valid()
      && leader.digest == Canonical(leader.response)
      && var mail := r.tickets[g].mail;
         match leader.stage
         case Held => mail == Empty
         case Staged => mail == Delivery(leader.response, AckPending)
         case Done(ok) => if ok then mail == Delivery(leader.response, AckOk) else !(mail.Delivery? && mail.ack.AckOk?)
  }

  predicate TicketOk(r: Registry, g: SeqNo) {
    g in r.tickets ==> g < r.nextGeneration && (r.tickets[g].mail.Delivery? ==> g in r.leaders)
  }

  ghost predicate Books(r: Registry) {
    && (forall id :: EntryOk(r, id))
    && (forall g :: LeaderOk(r, g))
    && (forall g :: TicketOk(r, g))
  }

  // ---- Which leader published which resolution ----

  predicate PublishedOk(r: Registry, g: SeqNo) {
    && (g in r.published <==> r.enabled && g in r.leaders && r.leaders[g].stage == Done(true))
    && (g in r.published ==> r.published[g] in r.resolvedBy && r.resolvedBy[r.published[g]] == g)
  }

  predicate ResolutionOk(r: Registry, n: nat) {
    && (n in r.resolvedBy ==>
          && 1 <= n <= |r.stream.log| && r.resolvedBy[n] in r.leaders
          && r.resolvedBy[n] in r.published && r.published[r.resolvedBy[n]] == n
          && r.stream.log[n - 1].payload == Removed(r.leaders[r.resolvedBy[n]].id, RESOLVED))
    && (1 <= n <= |r.stream.log| ==>
          var payload := r.stream.log[n - 1].payload;
          payload.Removed? && payload.cause == RESOLVED ==> n in r.resolvedBy)
  }

  ghost predicate History(r: Registry) {
    && (forall g :: PublishedOk(r, g))
    && (forall n: nat :: ResolutionOk(r, n))
  }

  // ---- The snapshot against the entries ----

  // A request that is not decided yet: waiting, or with a leader still at work.
  predicate Undecided(r: Registry, id: Identity) {
    && id in r.entries
    && (r.entries[id].Resolved? ==>
          r.entries[id].generation in r.leaders && !r.leaders[r.entries[id].generation].stage.Done?)
  }

  predicate Pends(r: Registry, id: Identity) {
    id in IdsOf(r.stream.snapshot.pending)
  }

  // Every undecided request is in the snapshot.
  ghost predicate Covered(r: Registry) {
    r.enabled && Room(r.stream) ==> forall id :: Undecided(r, id) ==> Pends(r, id)
  }

  // The snapshot shows the undecided requests and no other.
  ghost predicate Agrees(r: Registry) {
    r.enabled && Room(r.stream) ==> forall id :: Pends(r, id) <==> Undecided(r, id)
  }

  ghost predicate Consistent(r: Registry) {
    StreamOk(r.enabled, r.stream) && Books(r) && History(r) && Covered(r)
  }

  // ---- Publishing ----

  // At most one event was appended, and it resolved nothing.
  ghost predicate Extends(s: Stream, next: Stream) {
    && s.log <= next.log
    && forall n | |s.log| <= n < |next.log| :: next.log[n].payload.Removed? ==> next.log[n].payload.cause != RESOLVED
  }

  lemma HistoryExtends(r: Registry, next: Registry)
    requires History(r) && next == r.(stream := next.stream) && Extends(r.stream, next.stream)
    ensures History(next)
  {
    forall g ensures PublishedOk(next, g) { assert PublishedOk(r, g); }
    forall n: nat ensures ResolutionOk(next, n) {
      assert ResolutionOk(r, n);
      if 1 <= n <= |r.stream.log| { assert next.stream.log[n - 1] == r.stream.log[n - 1]; }
    }
  }

  lemma OriginFinishedFits()
    ensures OtherCause(ORIGIN_FINISHED)
  {
    ShortText(ORIGIN_FINISHED, MAX_ID_BYTES);
  }

  lemma PublicationFailedFits()
    ensures OtherCause(PUBLICATION_FAILED)
  {
    ShortText(PUBLICATION_FAILED, MAX_ID_BYTES);
  }

  lemma ResolvedFits()
    ensures BoundedText(RESOLVED, MAX_ID_BYTES)
  {
    ShortText(RESOLVED, MAX_ID_BYTES);
  }

  // The books do not depend on the stream.
  lemma SameBooks(r: Registry, next: Registry)
    requires Books(r) && r.entries == next.entries && r.tickets == next.tickets && r.leaders == next.leaders
    requires r.nextGeneration <= next.nextGeneration
    ensures Books(next)
  {
    forall id ensures EntryOk(next, id) { assert EntryOk(r, id); }
    forall g ensures LeaderOk(next, g) { assert LeaderOk(r, g); }
    forall g ensures TicketOk(next, g) { assert TicketOk(r, g); }
  }

  // Nor does the history depend on entries or continuations.
  lemma SameHistory(r: Registry, next: Registry)
    requires History(r) && r.enabled == next.enabled && r.stream.log == next.stream.log
    requires r.leaders == next.leaders && r.published == next.published && r.resolvedBy == next.resolvedBy
    ensures History(next)
  {
    forall g ensures PublishedOk(next, g) { assert PublishedOk(r, g); }
    forall n: nat ensures ResolutionOk(next, n) { assert ResolutionOk(r, n); }
  }

  // Fewer entries, and the same leaders.
  lemma FewerEntries(r: Registry, next: Registry)
    requires Books(r) && r.tickets == next.tickets && r.leaders == next.leaders
             && r.nextGeneration == next.nextGeneration
    requires forall id | id in next.entries :: id in r.entries && next.entries[id] == r.entries[id]
    ensures Books(next)
  {
    forall id ensures EntryOk(next, id) { assert EntryOk(r, id); }
    forall g ensures LeaderOk(next, g) { assert LeaderOk(r, g); }
    forall g ensures TicketOk(next, g) { assert TicketOk(r, g); }
  }

  // ---- Taking an undecided request away ----

  // What the stream becomes: one removal, unless nothing can be published.
  ghost predicate Withdraws(r: Registry, id: Identity, cause: string, next: Stream) {
    if !r.enabled then next == r.stream
    else if Room(r.stream) then Commit(r.stream, Removed(id, cause)) == Some(next)
    else
      && next.first == r.stream.first && next.log == r.stream.log
      && next.snapshot.threadId == r.stream.snapshot.threadId && next.snapshot.cursor == r.stream.snapshot.cursor
  }

  // While cursor space is left the removal of an undecided request is always committed.
  lemma RemovalCommits(r: Registry, id: Identity, cause: string)
    requires Consistent(r) && r.enabled && id.Valid() && BoundedText(cause, MAX_ID_BYTES) && Undecided(r, id)
    ensures Commit(r.stream, Removed(id, cause)).Some? <==> Room(r.stream)
  {
    CommitMeaning(r.stream, Removed(id, cause));
    assert Room(r.stream) ==> Pends(r, id);
  }

  lemma WithdrawStream(r: Registry, id: Identity, cause: string, next: Stream)
    requires Consistent(r) && id.Valid() && BoundedText(cause, MAX_ID_BYTES) && Undecided(r, id)
             && Withdraws(r, id, cause, next)
    ensures StreamOk(r.enabled, next) && r.stream.log <= next.log
    ensures r.enabled && Room(r.stream) ==>
      && |next.log| == |r.stream.log| + 1 && next.log[|r.stream.log|].payload == Removed(id, cause)
      && forall x :: x in IdsOf(next.snapshot.pending) <==> Pends(r, x) && x != id
    ensures !(r.enabled && Room(r.stream)) ==> next.log == r.stream.log
  {
    if r.enabled { CommitMeaning(r.stream, Removed(id, cause)); }
  }

  lemma WithdrawKeeps(r: Registry, id: Identity, cause: string, next: Registry)
    requires Consistent(r) && id.Valid() && OtherCause(cause) && Undecided(r, id)
             && Withdraws(r, id, cause, next.stream)
    requires next == r.(entries := r.entries - {id}, stream := next.stream)
    ensures Consistent(next) && (Agrees(r) ==> Agrees(next))
  {
    WithdrawStream(r, id, cause, next.stream);
    FewerEntries(r, next);
    WithdrawHistory(r, next);
    forall x ensures Undecided(next, x) <==> Undecided(r, x) && x != id {}
    assert Room(next.stream) ==> Room(r.stream);
  }

  lemma WithdrawHistory(r: Registry, next: Registry)
    requires History(r) && next == r.(entries := next.entries, stream := next.stream) && Extends(r.stream, next.stream)
    ensures History(next)
  {
    HistoryExtends(r, r.(stream := next.stream));
    SameHistory(r.(stream := next.stream), next);
  }

  // Both happen under one lock: the entry leaves and the removal is published.
  lemma DropEntryKeeps(r: Registry, id: Identity, cause: string)
    requires Consistent(r) && OtherCause(cause) && id in r.entries && r.entries[id].Waiting?
    ensures var next := TryPublish(r.(entries := r.entries - {id}), Removed(id, cause));
            next == r.(entries := r.entries - {id}, stream := next.stream) && Consistent(next)
              && (Agrees(r) ==> Agrees(next))
  {
    assert EntryOk(r, id);
    var next := TryPublish(r.(entries := r.entries - {id}), Removed(id, cause));
    assert Withdraws(r, id, cause, next.stream) by { if r.enabled { RemovalCommits(r, id, cause); } }
    WithdrawKeeps(r, id, cause, next);
  }

  lemma OneEntryPerGeneration(r: Registry, id: Identity)
    requires Books(r) && id in r.entries
    ensures forall x | x in r.entries && x != id :: r.entries[x].generation != r.entries[id].generation
  {
    assert EntryOk(r, id);
    forall x | x in r.entries && x != id ensures r.entries[x].generation != r.entries[id].generation {
      assert EntryOk(r, x);
    }
  }

  lemma ClearExactKeeps(r: Registry, id: Identity, g: SeqNo, cause: string)
    requires Consistent(r) && OtherCause(cause)
    ensures var next := ClearExact(r, id, g, cause); Consistent(next) && (Agrees(r) ==> Agrees(next))
  {
    if id in r.entries && r.entries[id].Waiting? && r.entries[id].generation == g {
      assert EntryOk(r, id);
      DropEntryKeeps(r, id, cause);
      if r.tickets[g].open {
        OneEntryPerGeneration(r, id);
        MailKeeps(TryPublish(r.(entries := r.entries - {id}), Removed(id, cause)), g, Cancelled);
      }
    }
  }

  // Writing to a continuation that no entry and no leader holds.
  lemma MailKeeps(r: Registry, g: SeqNo, mail: Mail)
    requires Consistent(r) && g in r.tickets && g !in r.leaders && !mail.Delivery?
    requires forall id | id in r.entries :: r.entries[id].generation != g
    ensures var next := r.(tickets := r.tickets[g := r.tickets[g].(mail := mail)]);
            Consistent(next) && (Agrees(r) ==> Agrees(next))
  {
    var next := r.(tickets := r.tickets[g := r.tickets[g].(mail := mail)]);
    forall id ensures EntryOk(next, id) { assert EntryOk(r, id); }
    forall h ensures LeaderOk(next, h) { assert LeaderOk(r, h); }
    forall h ensures TicketOk(next, h) { assert TicketOk(r, h); }
    SameHistory(r, next);
    forall id ensures Undecided(next, id) <==> Undecided(r, id) {}
    forall id ensures Pends(next, id) <==> Pends(r, id) {}
  }

  lemma {:induction false} ClearAllKeeps(r: Registry, ids: seq<Identity>, cause: string)
    requires Consistent(r) && OtherCause(cause)
    ensures var next := ClearAll(r, ids, cause); Consistent(next) && (Agrees(r) ==> Agrees(next))
    decreases |ids|
  {
    if ids != [] {
      var id := ids[0];
      if id in r.entries {
        ClearExactKeeps(r, id, r.entries[id].generation, cause);
        ClearAllKeeps(ClearExact(r, id, r.entries[id].generation, cause), ids[1..], cause);
      } else {
        ClearAllKeeps(r, ids[1..], cause);
      }
    }
  }

  // ---- Requests ----

  lemma BeginKeeps(r: Registry, id: Identity, request: Request, origin: Origin)
    requires Consistent(r)
    ensures var next := Begin(r, id, request, origin).0; Consistent(next) && (Agrees(r) ==> Agrees(next))
  {
    if BeginRefusal(r, id, request).None? {
      var g := r.nextGeneration;
      var bumped := r.(nextGeneration := g + 1);
      BumpKeeps(r, bumped);
      assert g !in r.tickets by { assert TicketOk(r, g); }
      assert g !in r.leaders by { assert LeaderOk(r, g); }
      if Pending(id, request).Valid() { AskKeeps(bumped, id, request, origin, g); }
    }
  }

  lemma AskKeeps(r: Registry, id: Identity, request: Request, origin: Origin, g: SeqNo)
    requires Consistent(r) && Pending(id, request).Valid()
    requires g < r.nextGeneration && g !in r.tickets && g !in r.leaders && id !in r.entries
    ensures var next := Ask(r, id, request, origin, g).0; Consistent(next) && (Agrees(r) ==> Agrees(next))
  {
    var published := Publish(r, Requested(Pending(id, request)));
    if published.Some? { OpenEntry(r, id, request, origin, g, published.value.stream); }
  }

  lemma BumpKeeps(r: Registry, next: Registry)
    requires Consistent(r) && r.nextGeneration <= next.nextGeneration
    requires next == r.(nextGeneration := next.nextGeneration, runs := next.runs)
    ensures Consistent(next) && (Agrees(r) ==> Agrees(next))
  {
    SameBooks(r, next);
    SameHistory(r, next);
    SameAgreement(r, next);
  }

  lemma SameAgreement(r: Registry, next: Registry)
    requires r.enabled == next.enabled && r.stream == next.stream && r.entries == next.entries
             && r.leaders == next.leaders
    ensures Covered(r) ==> Covered(next)
    ensures Agrees(r) ==> Agrees(next)
  {
    forall id ensures Undecided(next, id) <==> Undecided(r, id) {}
    forall id ensures Pends(next, id) <==> Pends(r, id) {}
  }

  lemma OpenEntry(r: Registry, id: Identity, request: Request, origin: Origin, g: SeqNo, stream: Stream)
    requires Consistent(r) && Pending(id, request).Valid()
    requires g < r.nextGeneration && g !in r.tickets && g !in r.leaders && id !in r.entries
    requires if r.enabled then Commit(r.stream, Requested(Pending(id, request))) == Some(stream) else stream == r.stream
    ensures var next := r.(stream := stream, entries := r.entries[id := Waiting(request, g, origin)],
                           tickets := r.tickets[g := Ticket(id, true, Empty)]);
            Consistent(next) && (Agrees(r) ==> Agrees(next))
  {
    var next := r.(stream := stream, entries := r.entries[id := Waiting(request, g, origin)],
      tickets := r.tickets[g := Ticket(id, true, Empty)]);
    if r.enabled { CommitMeaning(r.stream, Requested(Pending(id, request))); }
    OpenEntryBooks(r, next, id, g);
    assert History(next) by {
      HistoryExtends(r, r.(stream := stream));
      SameHistory(r.(stream := stream), next);
    }
    forall x ensures Undecided(next, x) <==> Undecided(r, x) || x == id {}
  }

  lemma OpenEntryBooks(r: Registry, next: Registry, id: Identity, g: SeqNo)
    requires Books(r) && id.Valid() && g < r.nextGeneration == next.nextGeneration && g !in r.tickets && g !in r.leaders
    requires id in next.entries && next.entries[id].Waiting? && next.entries[id].generation == g
    requires next.entries == r.entries[id := next.entries[id]]
    requires next.tickets == r.tickets[g := Ticket(id, true, Empty)] && next.leaders == r.leaders
    ensures Books(next)
  {
    forall x ensures EntryOk(next, x) { assert EntryOk(r, x); }
    forall h ensures LeaderOk(next, h) { assert LeaderOk(r, h); }
    forall h ensures TicketOk(next, h) { assert TicketOk(r, h); }
  }

  // ---- Responses ----

  lemma RespondKeeps(r: Registry, requireEnabled: bool, id: Identity, response: Json, g: SeqNo)
    requires Consistent(r)
    ensures var next := Respond(r, requireEnabled, id, response, g).0; Consistent(next) && (Agrees(r) ==> Agrees(next))
  {
    var look := LookUp(r, requireEnabled, id, response);
    if look.Candidate? && look.generation == g { ResolveKeeps(r, id, response); }
  }

  lemma ResolveKeeps(r: Registry, id: Identity, response: Json)
    requires Consistent(r) && id in r.entries && r.entries[id].Waiting?
    ensures var next := Resolve(r, id, response, r.entries[id].request, r.entries[id].generation).0;
            Consistent(next) && (Agrees(r) ==> Agrees(next))
  {
    assert EntryOk(r, id);
    if r.tickets[r.entries[id].generation].open {
      OpenLeader(r, id, response, r.entries[id].request.kind == TOOL_APPROVAL);
    } else {
      OriginFinishedFits();
      DropEntryKeeps(r, id, ORIGIN_FINISHED);
    }
  }

  lemma OpenLeader(r: Registry, id: Identity, response: Json, typed: bool)
    requires Consistent(r) && id in r.entries && r.entries[id].Waiting?
    ensures var g, digest := r.entries[id].generation, Canonical(response);
            var next := r.(entries := r.entries[id := Resolved(digest, g, typed)],
                           leaders := r.leaders[g := Leader(id, digest, response, Held)]);
            Consistent(next) && (Agrees(r) ==> Agrees(next))
  {
    var g, digest := r.entries[id].generation, Canonical(response);
    var next := r.(entries := r.entries[id := Resolved(digest, g, typed)],
      leaders := r.leaders[g := Leader(id, digest, response, Held)]);
    assert EntryOk(r, id);
    OpenLeaderBooks(r, next, id, g);
    forall h ensures PublishedOk(next, h) { assert PublishedOk(r, h); }
    forall n: nat ensures ResolutionOk(next, n) { assert ResolutionOk(r, n); }
    OneEntryPerGeneration(r, id);
    forall x ensures Undecided(next, x) <==> Undecided(r, x) {}
    forall x ensures Pends(next, x) <==> Pends(r, x) {}
  }

  lemma OpenLeaderBooks(r: Registry, next: Registry, id: Identity, g: SeqNo)
    requires Books(r) && id in r.entries && r.entries[id].Waiting? && r.entries[id].generation == g
    requires g in next.leaders && next.leaders == r.leaders[g := next.leaders[g]]
    requires next.leaders[g].id == id && next.leaders[g].stage == Held
             && next.leaders[g].digest == Canonical(next.leaders[g].response)
    requires id in next.entries && next.entries == r.entries[id := next.entries[id]]
    requires next.entries[id].Resolved? && next.entries[id].generation == g
             && next.entries[id].digest == next.leaders[g].digest
    requires next.tickets == r.tickets && next.nextGeneration == r.nextGeneration
    ensures Books(next)
  {
    assert EntryOk(r, id);
    forall x ensures EntryOk(next, x) { assert EntryOk(r, x); }
    forall h ensures LeaderOk(next, h) { assert LeaderOk(r, h); }
    forall h ensures TicketOk(next, h) { assert TicketOk(r, h); }
  }

  // A leader moves from one stage to the next, and its continuation with it.
  lemma AdvanceBooks(r: Registry, next: Registry, g: SeqNo)
    requires Books(r) && Running(r, g)
    requires g in next.leaders && next.leaders == r.leaders[g := next.leaders[g]]
    requires next.leaders[g] == r.leaders[g].(stage := next.leaders[g].stage)
    requires g in next.tickets && next.tickets == r.tickets[g := next.tickets[g]]
    requires next.tickets[g].id == r.tickets[g].id && LeaderOk(next, g)
    requires next.leaders[g].stage == Done(false) ==> !Owns(r, g)
    requires next.entries == r.entries && next.nextGeneration == r.nextGeneration
    ensures Books(next)
  {
    assert LeaderOk(r, g);
    forall x ensures EntryOk(next, x) { assert EntryOk(r, x); }
    forall h ensures LeaderOk(next, h) { assert LeaderOk(r, h); }
    forall h ensures TicketOk(next, h) { assert TicketOk(r, h); }
  }

  // A leader that no longer owns an entry fails: nothing of the entries or the stream changes.
  lemma FailKeeps(r: Registry, g: SeqNo)
    requires Consistent(r) && Running(r, g) && !Owns(r, g)
    ensures var next := Settle(r, g, false); Consistent(next) && (Agrees(r) ==> Agrees(next))
  {
    var next := Settle(r, g, false);
    assert LeaderOk(r, g);
    assert PublishedOk(r, g);
    AdvanceBooks(r, next, g);
    SettledHistory(r, next, g);
    forall x ensures Undecided(next, x) <==> Undecided(r, x) { assert EntryOk(r, x); }
    forall x ensures Pends(next, x) <==> Pends(r, x) {}
  }

  lemma SettledHistory(r: Registry, next: Registry, g: SeqNo)
    requires History(r) && Running(r, g) && r.stream == next.stream && r.enabled == next.enabled
    requires r.published == next.published && r.resolvedBy == next.resolvedBy
    requires g in next.leaders && next.leaders == r.leaders[g := next.leaders[g]]
    requires next.leaders[g] == r.leaders[g].(stage := next.leaders[g].stage) && next.leaders[g].stage != Done(true)
    ensures History(next)
  {
    assert PublishedOk(r, g);
    forall h ensures PublishedOk(next, h) { assert PublishedOk(r, h); }
    forall n: nat ensures ResolutionOk(next, n) { assert ResolutionOk(r, n); }
  }

  lemma AbortKeeps(r: Registry, g: SeqNo, cause: string)
    requires Consistent(r) && OtherCause(cause)
    ensures var next := Abort(r, g, cause); Consistent(next) && (Agrees(r) ==> Agrees(next))
  {
    if Running(r, g) {
      var mid := AbortResolved(r, g, cause);
      assert LeaderOk(r, g);
      if Owns(r, g) {
        var id := r.leaders[g].id;
        assert Withdraws(r, id, cause, mid.stream) by { if r.enabled { RemovalCommits(r, id, cause); } }
        WithdrawKeeps(r, id, cause, mid);
      }
      FailKeeps(mid, g);
    }
  }

  lemma StageKeeps(r: Registry, g: SeqNo)
    requires Consistent(r)
    ensures var next := StageDelivery(r, g);
            Consistent(next) && (Agrees(r) ==> Agrees(next)) && (Running(next, g) ==> next.leaders[g].stage == Staged)
  {
    if Running(r, g) && r.leaders[g].stage == Held {
      if r.tickets[g].open {
        DeliverKeeps(r, g);
      } else {
        OriginFinishedFits();
        AbortKeeps(r, g, ORIGIN_FINISHED);
      }
    }
  }

  lemma DeliverKeeps(r: Registry, g: SeqNo)
    requires Consistent(r) && Running(r, g) && r.leaders[g].stage == Held
    ensures var next := r.(leaders := r.leaders[g := r.leaders[g].(stage := Staged)],
                           tickets := r.tickets[g := r.tickets[g].(mail := Delivery(r.leaders[g].response,
                             AckPending))]);
            Consistent(next) && (Agrees(r) ==> Agrees(next))
  {
    var next := r.(leaders := r.leaders[g := r.leaders[g].(stage := Staged)],
                   tickets := r.tickets[g := r.tickets[g].(mail := Delivery(r.leaders[g].response, AckPending))]);
    assert LeaderOk(r, g);
    AdvanceBooks(r, next, g);
    SettledHistory(r, next, g);
    forall x ensures Undecided(next, x) <==> Undecided(r, x) {}
    forall x ensures Pends(next, x) <==> Pends(r, x) {}
  }

  // What a successful release changes, once its delivery is staged.
  ghost predicate Released(r: Registry, g: SeqNo, next: Registry)
    requires g in r.leaders && g in r.tickets
  {
    var leader, n := r.leaders[g], |next.stream.log|;
    && next == r.(stream := next.stream, leaders := next.leaders, tickets := next.tickets,
                  published := next.published, resolvedBy := next.resolvedBy)
    && next.leaders == r.leaders[g := leader.(stage := Done(true))]
    && next.tickets == r.tickets[g := r.tickets[g].(mail := Delivery(leader.response, AckOk))]
    && next.published == (if r.enabled then r.published[g := n] else r.published)
    && next.resolvedBy == (if r.enabled then r.resolvedBy[n := g] else r.resolvedBy)
    && (if r.enabled then Commit(r.stream, Removed(leader.id, RESOLVED)) == Some(next.stream)
      else next.stream == r.stream)
  }

  lemma ReleasedHistory(r: Registry, g: SeqNo, next: Registry)
    requires StreamOk(r.enabled, r.stream) && History(r) && Running(r, g) && Released(r, g, next)
    requires r.enabled ==>
      && r.stream.log <= next.stream.log && |next.stream.log| == |r.stream.log| + 1
      && next.stream.log[|r.stream.log|].payload == Removed(r.leaders[g].id, RESOLVED)
    ensures History(next)
  {
    assert PublishedOk(r, g);
    if r.enabled {
      ResolvedHistory(r, g, next);
    } else {
      forall h ensures PublishedOk(next, h) { assert PublishedOk(r, h); }
      forall n: nat ensures ResolutionOk(next, n) { assert ResolutionOk(r, n); }
    }
  }

  lemma ResolvedHistory(r: Registry, g: SeqNo, next: Registry)
    requires History(r) && r.enabled && next.enabled && g in r.leaders && g !in r.published
    requires r.stream.log <= next.stream.log && |next.stream.log| == |r.stream.log| + 1
    requires next.stream.log[|r.stream.log|].payload == Removed(r.leaders[g].id, RESOLVED)
    requires next.leaders == r.leaders[g := r.leaders[g].(stage := Done(true))]
    requires next.published == r.published[g := |next.stream.log|]
    requires next.resolvedBy == r.resolvedBy[|next.stream.log| := g]
    ensures History(next)
  {
    assert ResolutionOk(r, |next.stream.log|);
    forall h ensures PublishedOk(next, h) { assert PublishedOk(r, h); }
    forall n: nat ensures ResolutionOk(next, n) {
      assert ResolutionOk(r, n);
      if 1 <= n <= |r.stream.log| { assert next.stream.log[n - 1] == r.stream.log[n - 1]; }
    }
  }

  lemma ReleasedKeeps(r: Registry, g: SeqNo, next: Registry)
    requires Consistent(r) && Running(r, g) && r.leaders[g].stage == Staged && Owns(r, g) && Released(r, g, next)
    ensures Consistent(next) && (Agrees(r) ==> Agrees(next))
  {
    var id := r.leaders[g].id;
    assert LeaderOk(r, g);
    if r.enabled {
      ResolvedFits();
      CommitMeaning(r.stream, Removed(id, RESOLVED));
    }
    ReleasedHistory(r, g, next);
    AdvanceBooks(r, next, g);
    forall x ensures Undecided(next, x) <==> Undecided(r, x) && x != id { assert EntryOk(r, x); }
    assert Room(next.stream) ==> Room(r.stream);
  }

  lemma ConcludeKeeps(r: Registry, g: SeqNo)
    requires Consistent(r) && (Running(r, g) ==> r.leaders[g].stage == Staged)
    ensures var next := Conclude(r, g); Consistent(next) && (Agrees(r) ==> Agrees(next))
  {
    if Running(r, g) {
      if !r.tickets[g].open {
        OriginFinishedFits();
        AbortKeeps(r, g, ORIGIN_FINISHED);
      } else if PublishResolved(r, g).Some? {
        ReleaseCase(r, g);
        ReleasedKeeps(r, g, Settle(PublishResolved(r, g).value, g, true));
      } else {
        PublicationFailedFits();
        AbortKeeps(r, g, PUBLICATION_FAILED);
      }
    }
  }

  lemma ReleaseKeeps(r: Registry, g: SeqNo)
    requires Consistent(r)
    ensures var next := Release(r, g); Consistent(next) && (Agrees(r) ==> Agrees(next))
  {
    StageKeeps(r, g);
    ConcludeKeeps(StageDelivery(r, g), g);
  }

  lemma ReleaseCase(staged: Registry, g: SeqNo)
    requires Running(staged, g) && staged.leaders[g].stage == Staged && PublishResolved(staged, g).Some?
    ensures Owns(staged, g) && Released(staged, g, Settle(PublishResolved(staged, g).value, g, true))
  {
  }

  // ---- Retirement and the rest ----

  lemma RetireKeeps(r: Registry, turnId: string)
    requires Consistent(r)
    ensures Consistent(Retire(r, turnId))
  {
    var next := Retire(r, turnId);
    FewerEntries(r, next);
    SameHistory(r, next);
    forall x ensures Undecided(next, x) ==> Undecided(r, x) {}
    forall x ensures Pends(next, x) <==> Pends(r, x) {}
  }

  lemma CloseTicketKeeps(r: Registry, g: SeqNo)
    requires Consistent(r)
    ensures var next := CloseTicket(r, g); Consistent(next) && (Agrees(r) ==> Agrees(next))
  {
    if g in r.tickets {
      var next := CloseTicket(r, g);
      forall x ensures EntryOk(next, x) { assert EntryOk(r, x); }
      forall h ensures LeaderOk(next, h) { assert LeaderOk(r, h); }
      forall h ensures TicketOk(next, h) { assert TicketOk(r, h); }
      SameHistory(r, next);
      SameAgreement(r, next);
    }
  }

  // A request of the run whose leader is still at work.
  predicate LeaderAtWork(r: Registry, turnId: string, id: Identity) {
    id.turnId == turnId && Undecided(r, id) && r.entries[id].Resolved?
  }

  // retire_run refuses while a request of the run waits, but not while a leader is at work. So
  // from an agreeing registry it keeps the agreement exactly when no leader of the run is.
  lemma RetireAgrees(r: Registry, turnId: string, identity: nat)
    requires Consistent(r) && Agrees(r) && r.enabled && Room(r.stream) && Retirable(r, turnId, identity)
    ensures Agrees(Retire(r, turnId)) <==> forall id :: !LeaderAtWork(r, turnId, id)
  {
    var next := Retire(r, turnId);
    forall id: Identity ensures id.turnId == turnId && Undecided(r, id) <==> LeaderAtWork(r, turnId, id) {
      assert id.turnId == turnId && id in r.entries && r.entries[id].Waiting? ==> id in WaitingOf(r, turnId);
    }
    forall id: Identity ensures Undecided(next, id) <==> Undecided(r, id) && id.turnId != turnId {}
    forall id ensures Pends(next, id) <==> Pends(r, id) {}
  }

  // ---- Every step, every run ----

  // The precondition retire_run leaves to its caller.
  ghost predicate Careful(r: Registry, step: Step) {
    step.RetireRun? ==> forall id :: !LeaderAtWork(r, step.turnId, id)
  }

  lemma StepKeeps(r: Registry, step: Step)
    requires Consistent(r) && Allowed(step)
    ensures Consistent(Next(r, step))
    ensures Agrees(r) && Careful(r, step) ==> Agrees(Next(r, step))
  {
    match step
    case RegisterRun(_, _) => BumpKeeps(r, Next(r, step));
    case UnregisterRun(_, _) => BumpKeeps(r, Next(r, step));
    case BeginRequest(id, request, origin) => BeginKeeps(r, id, request, origin);
    case CommitResponse(require, id, response, g) => RespondKeeps(r, require, id, response, g);
    case StageLeader(g) => StageKeeps(r, g);
    case ReleaseLeader(g) => ReleaseKeeps(r, g);
    case AbortLeader(g, cause) => AbortKeeps(r, g, cause);
    case DropLeader(g) => PublicationFailedFits(); AbortKeeps(r, g, PUBLICATION_FAILED);
    case ClearRequest(id, g, cause) => ClearExactKeeps(r, id, g, cause);
    case ClearRun(ids, cause) => ClearAllKeeps(r, ids, cause);
    case RetireRun(turnId, identity) => RetireStep(r, turnId, identity);
    case DropTicket(g) => CloseTicketKeeps(r, g);
  }

  lemma RetireStep(r: Registry, turnId: string, identity: nat)
    requires Consistent(r)
    ensures var step := RetireRun(turnId, identity);
            Consistent(Next(r, step)) && (Agrees(r) && Careful(r, step) ==> Agrees(Next(r, step)))
  {
    if Retirable(r, turnId, identity) {
      RetireKeeps(r, turnId);
      if Agrees(r) && r.enabled && Room(r.stream) { RetireAgrees(r, turnId, identity); }
    }
  }

  function After(r: Registry, steps: seq<Step>): Registry {
    if steps == [] then r else Next(After(r, steps[..|steps| - 1]), steps[|steps| - 1])
  }

  ghost predicate CarefulRun(r: Registry, steps: seq<Step>) {
    forall k | 0 <= k < |steps| :: Careful(After(r, steps[..k]), steps[k])
  }

  lemma StartConsistent(enabled: bool, first: Snapshot)
    requires first.Valid() && first.pending == [] && first.cursor.seqNo == 0
    ensures Consistent(Start(enabled, first)) && Agrees(Start(enabled, first))
  {
  }

  // In every reachable state the snapshot's pending identities are exactly the requests that
  // wait or whose leader is at work, provided no run was retired under a leader.
  lemma {:induction false} RunAgrees(enabled: bool, first: Snapshot, steps: seq<Step>)
    requires first.Valid() && first.pending == [] && first.cursor.seqNo == 0
    requires forall step | step in steps :: Allowed(step)
    ensures Consistent(After(Start(enabled, first), steps))
    ensures CarefulRun(Start(enabled, first), steps) ==> Agrees(After(Start(enabled, first), steps))
  {
    var start := Start(enabled, first);
    if steps == [] {
      StartConsistent(enabled, first);
    } else {
      var n := |steps| - 1;
      RunAgrees(enabled, first, steps[..n]);
      StepKeeps(After(start, steps[..n]), steps[n]);
      if CarefulRun(start, steps) {
        forall k | 0 <= k < n ensures Careful(After(start, steps[..n][..k]), steps[..n][k]) {
          assert steps[..n][..k] == steps[..k];
        }
      }
    }
  }
}
