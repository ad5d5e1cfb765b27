// One session's interaction record: the fields the registry updates in place under its
// lock. Every method is the step of the same name on the record's abstract value.
module InteractionRecords {
  import opened Basics
  import opened CanonicalJson
  import opened Interactions
  import opened Convergence
  import opened Journal
  import opened Replay
  import opened ResponseSteps
  import opened ResponseAgreement

  // Journal entries: an event, its serialized size, and the run it belongs to.
  function Journaled(log: seq<Envelope>, sizeOf: Envelope -> nat): (es: seq<Journal.Entry<Envelope>>)
    ensures |es| == |log|
    ensures forall k | 0 <= k < |log| :: es[k] == JournalEntry(log[k], sizeOf)
  {
    seq(|log|, k requires 0 <= k < |log| => JournalEntry(log[k], sizeOf))
  }

  function JournalEntry(e: Envelope, sizeOf: Envelope -> nat): Journal.Entry<Envelope> {
    Journal.Entry(e.cursor.seqNo, sizeOf(e), Some(e.payload.Subject().turnId), e)
  }

  // Retention of one more event of the log.
  method RetainEvent(journal: seq<Journal.Entry<Envelope>>, bytes0: nat, floor0: nat, limits: Limits, e: Envelope,
                     sizeOf: Envelope -> nat, ghost log: seq<Envelope>, ghost barrier: nat)
    returns (kept: seq<Journal.Entry<Envelope>>, bytes: nat, floor: nat)
    requires Numbered(Journaled(log, sizeOf)) && e.cursor.seqNo == |log| + 1 && barrier <= |log|
    requires Window(journal, bytes0, floor0) == Retained(Journaled(log, sizeOf), barrier, limits)
    ensures Numbered(Journaled(log + [e], sizeOf)) && floor <= |log| + 1
    ensures Window(kept, bytes, floor) == Retained(Journaled(log + [e], sizeOf), barrier, limits)
  {
    JournaledAppend(log, e, sizeOf);
    kept, bytes, floor := Retain(journal, bytes0, floor0, limits, JournalEntry(e, sizeOf), Journaled(log, sizeOf),
      barrier);
  }

  class InteractionRecord {
    const limits: Limits
    const sizeOf: Envelope -> nat
    var enabled: bool
    var snapshot: Snapshot
    var journal: seq<Journal.Entry<Envelope>>
    var journalBytes: nat
    var replayFloor: Cursor
    var entries: map<Identity, ResponseSteps.Entry>
    var runs: map<string, nat>
    var nextGeneration: SeqNo
    var tickets: map<SeqNo, Ticket>
    var leaders: map<SeqNo, Leader>
    // The unbounded log, the furthest scrubbed event, and who published what.
    ghost var first: Snapshot
    ghost var log: seq<Envelope>
    ghost var barrier: nat
    ghost var published: map<SeqNo, nat>
    ghost var resolvedBy: map<nat, SeqNo>

    // The journal is the longest suffix of the log after the barrier that fits both limits.
    ghost predicate Valid()
      reads this`snapshot, this`journal, this`journalBytes, this`replayFloor, this`first, this`log, this`barrier
    {
      && barrier <= |log| <= LAST_SEQ
      && snapshot.cursor == first.cursor.(seqNo := |log|)
      && Numbered(Journaled(log, sizeOf))
      && Window(journal, journalBytes, replayFloor.seqNo) == Retained(Journaled(log, sizeOf), barrier, limits)
      && replayFloor.SameStream(first.cursor)
    }

    ghost function Published(): Stream
      reads this`snapshot, this`first, this`log
    {
      Stream(first, snapshot, log)
    }

    ghost function View(): Registry
      reads this
    {
      Registry(enabled, Published(), entries, runs, nextGeneration, tickets, leaders, published, resolvedBy)
    }

    constructor (enabled: bool, start: Snapshot, limits: Limits, sizeOf: Envelope -> nat)
      requires start.Valid() && start.pending == [] && start.cursor.seqNo == 0
      ensures Valid() && View() == Start(enabled, start)
      ensures this.limits == limits && this.sizeOf == sizeOf && journal == [] && journalBytes == 0
    {
      this.limits, this.sizeOf, this.enabled := limits, sizeOf, enabled;
      snapshot, journal, journalBytes, replayFloor := start, [], 0, start.cursor;
      entries, runs, nextGeneration, tickets, leaders := map[], map[], 1, map[], map[];
      first, log, barrier, published, resolvedBy := start, [], 0, map[], map[];
    }

    // ---- The journal ----

    // InteractionRecord::commit
    method CommitEvent(payload: Payload) returns (ok: bool)
      requires Valid()
      modifies this`snapshot, this`journal, this`journalBytes, this`replayFloor, this`log
      ensures Valid()
      ensures Commit(old(Published()), payload) == if ok then Some(Published()) else None
      ensures !ok ==> Published() == old(Published())
    {
      var next := snapshot.cursor.Next();
      if next.Err? { return false; }
      var e := Envelope(snapshot.threadId, next.value, payload);
      var applied := Apply(snapshot, e);
      if !applied.Applied? { return false; }
      var kept, bytes, floor := RetainEvent(journal, journalBytes, replayFloor.seqNo, limits, e, sizeOf, log, barrier);
      snapshot, log := applied.next, log + [e];
      journal, journalBytes, replayFloor := kept, bytes, replayFloor.(seqNo := floor);
      ok := true;
    }

    // `if record.enabled { .. commit .. }`
    method PublishEvent(payload: Payload) returns (ok: bool)
      requires Valid()
      modifies this`snapshot, this`journal, this`journalBytes, this`replayFloor, this`log
      ensures Valid()
      ensures Publish(old(View()), payload) == if ok then Some(View()) else None
      ensures !ok ==> View() == old(View())
    {
      if !enabled { return true; }
      ok := CommitEvent(payload);
    }

    method ScrubEvents(turnId: string)
      requires Valid()
      modifies this`journal, this`journalBytes, this`replayFloor, this`barrier
      ensures Valid() && barrier == old(Scrubbing(turnId)) && Scrubbed(turnId)
    {
      ghost var all := Journaled(log, sizeOf);
      var kept, bytes, floor := ScrubRun(journal, journalBytes, replayFloor.seqNo, turnId, all, barrier, limits);
      ScrubForgets(all, barrier, turnId, limits);
      journal, journalBytes, replayFloor := kept, bytes, replayFloor.(seqNo := floor);
      barrier := Scrubbing(turnId);
    }

    // The barrier once a run is scrubbed.
    ghost function Scrubbing(turnId: string): nat
      reads this`log, this`barrier
    {
      Max(barrier, LastOf(Journaled(log, sizeOf), turnId))
    }

    function Shelf(): Shelf
      reads this
    {
      Replay.Shelf(snapshot.cursor, replayFloor, journal)
    }

    // InteractionRegistry::subscribe, for a caller of this thread
    method Subscribe(params: Params) returns (r: Result<Page, string>)
      requires Valid() && StreamOk(true, Published()) && params.threadId == first.threadId
      ensures r == if enabled then Answer(Shelf(), params) else Err("Interactions are disabled")
      ensures r.Ok? ==> ValidFor(r.value, params)
    {
      if !enabled { return Err("Interactions are disabled"); }
      RecordIsMoment(this);
      AnswerIsValid(Shelf(), params);
      r := Answer(Shelf(), params);
    }

    // ---- Requests ----

    // The refusals of begin, in the order it checks them.
    method Admit(id: Identity, request: Request) returns (refusal: Option<Refusal>)
      ensures refusal == BeginRefusal(View(), id, request)
    {
      if !request.wellFormed { return Some(InvalidRequest); }
      if !enabled && request.kind != TOOL_APPROVAL { return Some(Unavailable); }
      if id.turnId !in runs { return Some(Unavailable); }
      if exists other :: other in entries && other.requestId == id.requestId { return Some(Unavailable); }
      var pendingForRun := set other | other in entries && other.turnId == id.turnId && entries[other].Waiting?;
      if |pendingForRun| >= MAX_PENDING_PER_RUN { return Some(Unavailable); }
      if nextGeneration >= LAST_SEQ { return Some(Unavailable); }
      refusal := None;
    }

    method BeginRequest(id: Identity, request: Request, origin: Origin) returns (r: Result<SeqNo, Refusal>)
      requires Valid()
      modifies this
      ensures Valid() && barrier == old(barrier)
      ensures (View(), r) == Begin(old(View()), id, request, origin)
    {
      var refusal := Admit(id, request);
      if refusal.Some? { return Err(refusal.value); }
      var generation := nextGeneration;
      nextGeneration := nextGeneration + 1;
      if !Pending(id, request).Valid() { return Err(InvalidRequest); }
      r := AskRequest(id, request, origin, generation);
    }

    // The part of begin after the generation is taken.
    method AskRequest(id: Identity, request: Request, origin: Origin,
                      generation: SeqNo) returns (r: Result<SeqNo, Refusal>)
      requires Valid()
      modifies this`snapshot, this`journal, this`journalBytes, this`replayFloor, this`log, this`entries, this`tickets
      ensures Valid()
      ensures (View(), r) == Ask(old(View()), id, request, origin, generation)
    {
      var ok := PublishEvent(Requested(Pending(id, request)));
      if !ok { return Err(Unavailable); }
      entries := entries[id := Waiting(request, generation, origin)];
      tickets := tickets[generation := Ticket(id, true, Empty)];
      r := Ok(generation);
    }

    // ---- Responses ----

    // What commit_response finds in the entry table when it takes the lock.
    method FindResponse(requireEnabled: bool, id: Identity, response: Json) returns (look: Look)
      ensures look == LookUp(View(), requireEnabled, id, response)
    {
      if requireEnabled && !enabled { return Refused(Unavailable); }
      if id !in entries { return Refused(NotFound); }
      match entries[id] {
        case Resolved(digest, generation, _) =>
          return if digest == Canonical(response) then Follow(generation) else Conflict;
        case Waiting(request, generation, _) =>
          return Candidate(request, generation);
      }
    }

    // The second locked section of commit_response, for the generation the first one found.
    method CommitResponse(requireEnabled: bool, id: Identity, response: Json, generation: SeqNo) returns (won: Won)
      requires Valid()
      modifies this
      ensures Valid() && barrier == old(barrier)
      ensures (View(), won) == Respond(old(View()), requireEnabled, id, response, generation)
    {
      var look := FindResponse(requireEnabled, id, response);
      match look {
        case Refused(refusal) => return Rejected(refusal);
        case Conflict => return Loses;
        case Follow(leader) => return Follows(leader);
        case Candidate(request, current) =>
          if current != generation { return Rejected(NotFound); }
          won := ResolveRequest(id, response, request, generation);
      }
    }

    method ResolveRequest(id: Identity, response: Json, request: Request, generation: SeqNo) returns (won: Won)
      requires Valid()
      modifies this`snapshot, this`journal, this`journalBytes, this`replayFloor, this`log, this`entries, this`leaders
      ensures Valid()
      ensures (View(), won) == Resolve(old(View()), id, response, request, generation)
    {
      if generation !in tickets || !tickets[generation].open {
        var ok := DropEntry(id, ORIGIN_FINISHED);
        return Rejected(if ok then NotFound else Unavailable);
      }
      var digest := Canonical(response);
      entries := entries[id := Resolved(digest, generation, request.kind == TOOL_APPROVAL)];
      leaders := leaders[generation := Leader(id, digest, response, Held)];
      won := Leads(generation);
    }

    // An entry leaves the table and the removal is published.
    method DropEntry(id: Identity, cause: string) returns (ok: bool)
      requires Valid()
      modifies this`snapshot, this`journal, this`journalBytes, this`replayFloor, this`log, this`entries
      ensures Valid() && entries == old(entries) - {id}
      ensures var gone := old(View()).(entries := old(entries) - {id});
              View() == TryPublish(gone, Removed(id, cause)) && (ok <==> Publish(gone, Removed(id, cause)).Some?)
    {
      entries := entries - {id};
      ok := PublishEvent(Removed(id, cause));
    }

    method AbortResolvedExact(generation: SeqNo, cause: string)
      requires Valid() && generation in leaders
      modifies this
      ensures Valid() && barrier == old(barrier)
      ensures View() == AbortResolved(old(View()), generation, cause)
    {
      var leader := leaders[generation];
      if leader.id !in entries { return; }
      var entry := entries[leader.id];
      if !entry.Resolved? || entry.generation != generation || entry.digest != leader.digest { return; }
      var ok := PublishEvent(Removed(leader.id, cause));
      if !ok { snapshot := snapshot.(pending := Forget(snapshot.pending, leader.id)); }
      entries := entries - {leader.id};
    }

    // What the continuation and the followers of a leader receive.
    method Signal(generation: SeqNo, ok: bool)
      requires Valid() && generation in leaders && generation in tickets
      modifies this`leaders, this`tickets
      ensures Valid()
      ensures View() == Settle(old(View()), generation, ok)
    {
      var leader, ticket := leaders[generation], tickets[generation];
      match leader.stage {
        case Held =>
          if ticket.open { tickets := tickets[generation := ticket.(mail := Cancelled)]; }
        case Staged =>
          tickets := tickets[generation := ticket.(mail := Delivery(leader.response, if ok then AckOk else AckFailed))];
        case Done(_) =>
      }
      leaders := leaders[generation := leader.(stage := Done(ok))];
    }

    method AbortResponse(generation: SeqNo, cause: string)
      requires Valid()
      modifies this
      ensures Valid() && barrier == old(barrier)
      ensures View() == Abort(old(View()), generation, cause)
    {
      if generation !in leaders || generation !in tickets || leaders[generation].stage.Done? { return; }
      AbortResolvedExact(generation, cause);
      Signal(generation, false);
    }

    method StageResponse(generation: SeqNo)
      requires Valid()
      modifies this
      ensures Valid() && barrier == old(barrier)
      ensures View() == StageDelivery(old(View()), generation)
    {
      if generation !in leaders || generation !in tickets || leaders[generation].stage != Held { return; }
      var leader, ticket := leaders[generation], tickets[generation];
      if !ticket.open {
        AbortResponse(generation, ORIGIN_FINISHED);
        return;
      }
      leaders := leaders[generation := leader.(stage := Staged)];
      tickets := tickets[generation := ticket.(mail := Delivery(leader.response, AckPending))];
    }

    method PublishResolvedExact(generation: SeqNo) returns (ok: bool)
      requires Valid() && generation in leaders
      modifies this`snapshot, this`journal, this`journalBytes, this`replayFloor, this`log, this`published,
        this`resolvedBy
      ensures Valid()
      ensures PublishResolved(old(View()), generation) == if ok then Some(View()) else None
      ensures !ok ==> View() == old(View())
    {
      var leader := leaders[generation];
      if leader.id !in entries { return false; }
      var entry := entries[leader.id];
      if !entry.Resolved? || entry.generation != generation || entry.digest != leader.digest { return false; }
      ok := PublishResolution(generation);
    }

    method PublishResolution(generation: SeqNo) returns (ok: bool)
      requires Valid() && generation in leaders
      modifies this`snapshot, this`journal, this`journalBytes, this`replayFloor, this`log, this`published,
        this`resolvedBy
      ensures Valid()
      ensures PublishOwned(old(View()), generation) == if ok then Some(View()) else None
      ensures !ok ==> View() == old(View())
    {
      ok := PublishEvent(Removed(leaders[generation].id, RESOLVED));
      if ok { AttributeResolution(generation); }
    }

    ghost method AttributeResolution(generation: SeqNo)
      modifies this`published, this`resolvedBy
      ensures View() == Attribute(old(View()), generation)
    {
      if enabled { published, resolvedBy := published[generation := |log|], resolvedBy[|log| := generation]; }
    }

    method ReleaseResponse(generation: SeqNo)
      requires Valid()
      modifies this
      ensures Valid() && barrier == old(barrier)
      ensures View() == Release(old(View()), generation)
    {
      StageResponse(generation);
      if generation !in leaders || generation !in tickets || leaders[generation].stage.Done? { return; }
      if !tickets[generation].open {
        AbortResponse(generation, ORIGIN_FINISHED);
        return;
      }
      var published := PublishResolvedExact(generation);
      if !published {
        AbortResponse(generation, PUBLICATION_FAILED);
        return;
      }
      Signal(generation, true);
    }

    // ---- Clearing and retirement ----

    method ClearRequest(id: Identity, generation: SeqNo, cause: string)
      requires Valid()
      modifies this
      ensures Valid() && barrier == old(barrier)
      ensures View() == ClearExact(old(View()), id, generation, cause)
      ensures entries == if id in old(entries) && old(entries)[id].Waiting? && old(entries)[id].generation == generation
                         then old(entries) - {id} else old(entries)
    {
      if id !in entries || !entries[id].Waiting? || entries[id].generation != generation { return; }
      var _ := DropEntry(id, cause);
      if generation in tickets && tickets[generation].open {
        tickets := tickets[generation := tickets[generation].(mail := Cancelled)];
      }
    }

    // The entry table gives its keys in any order.
    method ClearRun(turnId: string, cause: string) returns (order: seq<Identity>)
      requires Valid()
      modifies this
      ensures Valid() && barrier == old(barrier)
      ensures View() == ClearAll(old(View()), order, cause)
      ensures entries == old(entries) - WaitingOf(old(View()), turnId)
      ensures Distinct(order) && ToSet(order) == WaitingOf(old(View()), turnId)
    {
      order := [];
      var keys := set id | id in entries && id.turnId == turnId && entries[id].Waiting?;
      ghost var was, waiting := View(), keys;
      while keys != {}
        invariant Valid() && barrier == old(barrier) && keys <= waiting <= was.entries.Keys
        invariant View() == ClearAll(was, order, cause)
        invariant entries == was.entries - (waiting - keys)
        invariant forall id | id in waiting :: was.entries[id].Waiting?
        invariant Distinct(order) && ToSet(order) == waiting - keys
        decreases |keys|
      {
        var id :| id in keys;
        OneLess(was.entries, waiting, keys, id);
        ClearAllSnoc(was, order, id, cause);
        ClearRequest(id, entries[id].generation, cause);
        DistinctAppend(order, id);
        order, keys := order + [id], keys - {id};
      }
    }

    method RetireRun(turnId: string, identity: nat) returns (retired: bool)
      requires Valid()
      modifies this`journal, this`journalBytes, this`replayFloor, this`barrier, this`entries, this`runs
      ensures Valid()
      ensures View() == if Retirable(old(View()), turnId, identity) then Retire(old(View()), turnId) else old(View())
      // Scrubbing the run moves the barrier to its last event; otherwise the journal stays as it is.
      ensures barrier == if Retirable(old(View()), turnId, identity) then old(Scrubbing(turnId)) else old(barrier)
      ensures turnId in old(runs) ==> (retired <==> Retirable(old(View()), turnId, identity))
      // A run that is not registered, or not any more, counts as retired when nothing of it is left.
      ensures turnId !in old(runs) ==> (retired <==> old(Forgotten(turnId)))
      // What a retired run leaves behind: no entry, and no event that replay could return.
      ensures retired ==> Forgotten(turnId)
    {
      if turnId !in runs {
        return !(exists id :: id in entries && id.turnId == turnId)
               && !(exists k :: 0 <= k < |journal| && journal[k].run == Some(turnId));
      }
      if runs[turnId] != identity { return false; }
      var waiting := set id | id in entries && id.turnId == turnId && entries[id].Waiting?;
      if waiting != {} { return false; }
      EraseRun(turnId);
      retired := true;
    }

    method EraseRun(turnId: string)
      requires Valid()
      modifies this`journal, this`journalBytes, this`replayFloor, this`barrier, this`entries, this`runs
      ensures Valid() && View() == Retire(old(View()), turnId) && Forgotten(turnId)
      ensures barrier == old(Scrubbing(turnId))
    {
      ScrubEvents(turnId);
      DropRun(turnId);
    }

    method DropRun(turnId: string)
      modifies this`entries, this`runs
      ensures View() == Retire(old(View()), turnId)
      ensures turnId !in runs && forall id | id in entries :: id.turnId != turnId
    {
      entries := map id | id in entries && id.turnId != turnId :: entries[id];
      runs := runs - {turnId};
    }

    ghost predicate Forgotten(turnId: string)
      reads this`runs, this`entries, this`journal
    {
      turnId !in runs && (forall id | id in entries :: id.turnId != turnId) && Scrubbed(turnId)
    }

    // Replay has no event of the run to return.
    ghost predicate Scrubbed(turnId: string)
      reads this`journal
    {
      forall k | 0 <= k < |journal| :: journal[k].run != Some(turnId)
    }
  }

  lemma {:induction false} ClearAllSnoc(r: Registry, ids: seq<Identity>, id: Identity, cause: string)
    ensures var now := ClearAll(r, ids, cause);
            ClearAll(r, ids + [id], cause) ==
            if id in now.entries then ClearExact(now, id, now.entries[id].generation, cause) else now
    decreases |ids|
  {
    if ids == [] {
      assert ids + [id] == [id] && [id][1..] == [];
    } else {
      assert (ids + [id])[1..] == ids[1..] + [id];
      var x := ids[0];
      ClearAllSnoc(if x in r.entries then ClearExact(r, x, r.entries[x].generation, cause) else r, ids[1..], id, cause);
    }
  }

  // What a record with a given stream, barrier and limits shows to a paging client.
  function MomentOf(s: Stream, barrier: nat, limits: Limits, sizeOf: Envelope -> nat): Moment {
    var w := Retained(Journaled(s.log, sizeOf), Min(barrier, |s.log|), limits);
    Moment(s.log, Replay.Shelf(s.snapshot.cursor, s.first.cursor.(seqNo := Min(w.floor, LAST_SEQ)), w.entries))
  }

  // Its journal is the log after the floor.
  lemma StreamIsMoment(s: Stream, barrier: nat, limits: Limits, sizeOf: Envelope -> nat)
    requires StreamOk(true, s)
    ensures MomentOf(s, barrier, limits, sizeOf).Valid(s.first.cursor)
  {
    var m := MomentOf(s, barrier, limits, sizeOf);
    var floor := m.shelf.floor.seqNo;
    forall k | 0 <= k < |m.shelf.journal|
      ensures m.shelf.journal[k].payload == s.log[floor + k]
              && InStream(s.log[floor + k], m.shelf.current, floor + k + 1)
    {
      EventAt(s.first, s.log, floor + k);
    }
  }

  lemma RecordIsMoment(record: InteractionRecord)
    requires record.Valid() && StreamOk(true, record.Published())
    ensures Moment(record.log, record.Shelf()) ==
            MomentOf(record.Published(), record.barrier, record.limits, record.sizeOf)
    ensures Moment(record.log, record.Shelf()).Valid(record.first.cursor)
  {
    StreamIsMoment(record.Published(), record.barrier, record.limits, record.sizeOf);
  }

  // A journal without the label of a run has none of its events.
  lemma ScrubbedByRun(record: InteractionRecord, turnId: string)
    requires record.Valid() && record.Scrubbed(turnId)
    ensures forall k | 0 <= k < |record.journal| :: record.journal[k].payload.payload.Subject().turnId != turnId
  {
    var all := Journaled(record.log, record.sizeOf);
    forall k | 0 <= k < |record.journal| ensures record.journal[k].payload.payload.Subject().turnId != turnId {
      assert record.journal[k] == all[record.replayFloor.seqNo + k];
    }
  }

  lemma OneLess<K, V>(was: map<K, V>, all: set<K>, keys: set<K>, id: K)
    requires keys <= all <= was.Keys && id in keys
    ensures id in was - (all - keys) && (was - (all - keys))[id] == was[id]
    ensures was - (all - keys) - {id} == was - (all - (keys - {id}))
  {
  }

  lemma JournaledAppend(log: seq<Envelope>, e: Envelope, sizeOf: Envelope -> nat)
    requires Numbered(Journaled(log, sizeOf)) && e.cursor.seqNo == |log| + 1
    ensures Journaled(log + [e], sizeOf) == Journaled(log, sizeOf) + [JournalEntry(e, sizeOf)]
    ensures Numbered(Journaled(log, sizeOf) + [JournalEntry(e, sizeOf)])
  {
  }
}
