// What each step of the interaction registry does, from the outside: which requests and responses
// it lets through, what it then publishes, and what reaches the continuation and the followers.
module ResponseEffects {
  import opened Basics
  import opened CanonicalJson
  import opened Interactions
  import opened ResponseSteps
  import opened ResponseAgreement
  import opened ResponseOutcomes

  // The step published this event and no other, or nothing in a record with interactions disabled.
  ghost predicate Publishes(r: Registry, next: Registry, payload: Payload) {
    && next.enabled == r.enabled && next.stream.first == r.stream.first
    && |next.stream.log| == |r.stream.log| + (if r.enabled then 1 else 0)
    && r.stream.log <= next.stream.log
    && (r.enabled ==> next.stream.log[|r.stream.log|].payload == payload)
  }

  // Room for one more event, where events are published at all.
  predicate HasRoom(r: Registry) {
    r.enabled ==> Room(r.stream)
  }

  // Nothing of the record is different for other requests and generations.
  ghost predicate OnlyTouches(r: Registry, next: Registry, id: Identity, g: SeqNo) {
    && next.runs == r.runs && next.entries - {id} == r.entries - {id}
    && next.tickets - {g} == r.tickets - {g} && next.leaders - {g} == r.leaders - {g}
  }

  // ---- Release ----

  // A leader's release can succeed: somebody waits for the answer, the entry is still the leader's,
  // and its removal can be published.
  predicate Deliverable(r: Registry, g: SeqNo)
    requires Running(r, g)
  {
    r.tickets[g].open && Owns(r, g) && HasRoom(r)
  }

  lemma OwnedRemovalPublishes(r: Registry, g: SeqNo, cause: string)
    requires Consistent(r) && Running(r, g) && Owns(r, g) && BoundedText(cause, MAX_ID_BYTES)
    ensures Publish(r, Removed(r.leaders[g].id, cause)).Some? <==> HasRoom(r)
    ensures HasRoom(r) ==>
              Publishes(r, Publish(r, Removed(r.leaders[g].id, cause)).value, Removed(r.leaders[g].id, cause))
  {
    assert LeaderOk(r, g);
    RemovalIsPublished(r, r.leaders[g].id, cause);
  }

  // What failing a leader leaves: followers read the failure, the continuation gets no answer, and a
  // request that was still the leader's leaves the table, with an event that names the cause.
  ghost predicate Withdrawn(r: Registry, next: Registry, g: SeqNo, cause: string)
    requires g in r.leaders
  {
    var id := r.leaders[g].id;
    && Outcome(next, g) == Some(false) && Value(next, g) == None && OnlyTouches(r, next, id, g)
    && if Owns(r, g) then
         && id !in next.entries
         && (if HasRoom(r) then Publishes(r, next, Removed(id, cause)) else next.stream.log == r.stream.log)
       else
         next.entries == r.entries && next.stream == r.stream
  }

  // What a delivered response leaves: the continuation returns the leader's own response, the followers
  // read success, the entry stays, and the one new event is the removal of the request as resolved.
  ghost predicate Delivered(r: Registry, next: Registry, g: SeqNo)
    requires g in r.leaders
  {
    && Outcome(next, g) == Some(true) && Value(next, g) == Some(r.leaders[g].response)
    && next.entries == r.entries && OnlyTouches(r, next, r.leaders[g].id, g)
    && Publishes(r, next, Removed(r.leaders[g].id, RESOLVED))
  }

  lemma AbortedStream(r: Registry, g: SeqNo, cause: string)
    requires Consistent(r) && Running(r, g) && OtherCause(cause)
    ensures var next := AbortResolved(r, g, cause);
            && next == r.(entries := next.entries, stream := next.stream)
            && if Owns(r, g) then
                 && next.entries == r.entries - {r.leaders[g].id}
                 && (if HasRoom(r) then Publishes(r, next, Removed(r.leaders[g].id, cause))
                     else next.stream.log == r.stream.log)
               else next == r
  {
    if Owns(r, g) { OwnedRemovalPublishes(r, g, cause); }
  }

  // Aborting a leader fails it, whatever stage it is in.
  lemma AbortWithdraws(r: Registry, g: SeqNo, cause: string)
    requires Consistent(r) && Running(r, g) && OtherCause(cause)
    ensures Withdrawn(r, Abort(r, g, cause), g, cause)
    ensures Abort(r, g, cause).tickets[g].mail ==
            match r.leaders[g].stage
            case Staged => Delivery(r.leaders[g].response, AckFailed)
            case _ => if r.tickets[g].open then Cancelled else r.tickets[g].mail
  {
    assert LeaderOk(r, g);
    AbortedStream(r, g, cause);
    FailedTouches(r, AbortResolved(r, g, cause), g);
  }

  lemma FailedTouches(r: Registry, mid: Registry, g: SeqNo)
    requires Running(r, g) && LeaderOk(r, g) && mid == r.(entries := mid.entries, stream := mid.stream)
    requires mid.entries == r.entries || mid.entries == r.entries - {r.leaders[g].id}
    ensures var next := Settle(mid, g, false);
            && OnlyTouches(r, next, r.leaders[g].id, g) && Outcome(next, g) == Some(false) && Value(next, g) == None
            && next.entries == mid.entries && next.stream == mid.stream && next.enabled == mid.enabled
            && next.tickets[g].mail ==
               match r.leaders[g].stage
               case Staged => Delivery(r.leaders[g].response, AckFailed)
               case _ => if r.tickets[g].open then Cancelled else r.tickets[g].mail
  {
  }

  // Releasing a leader delivers its response exactly when that can be done, and otherwise fails it,
  // for want of somebody to answer or of a removal to publish.
  lemma ReleaseDelivers(r: Registry, g: SeqNo)
    requires Consistent(r) && Running(r, g)
    ensures var next := Next(r, ReleaseLeader(g));
            && (Outcome(next, g) == Some(true) <==> Deliverable(r, g))
            && if Deliverable(r, g) then Delivered(r, next, g)
               else Withdrawn(r, next, g, if r.tickets[g].open then PUBLICATION_FAILED else ORIGIN_FINISHED)
  {
    if r.tickets[g].open { OpenDelivers(r, g); } else { UnheardFails(r, g); }
  }

  lemma OpenDelivers(r: Registry, g: SeqNo)
    requires Consistent(r) && Running(r, g) && r.tickets[g].open
    ensures if Deliverable(r, g) then Delivered(r, Release(r, g), g)
            else Withdrawn(r, Release(r, g), g, PUBLICATION_FAILED)
  {
    var staged := StageDelivery(r, g);
    StageKeeps(r, g);
    StagedFacts(r, g);
    ConcludeDelivers(staged, g);
    StagedOnly(r, staged, Conclude(staged, g), g, PUBLICATION_FAILED);
  }

  lemma UnheardFails(r: Registry, g: SeqNo)
    requires Consistent(r) && Running(r, g) && !r.tickets[g].open
    ensures Withdrawn(r, Release(r, g), g, ORIGIN_FINISHED)
  {
    OriginFinishedFits();
    AbortWithdraws(r, g, ORIGIN_FINISHED);
    UnheardIsAborted(r, g);
  }

  lemma UnheardIsAborted(r: Registry, g: SeqNo)
    requires LeaderOk(r, g) && Running(r, g) && !r.tickets[g].open
    ensures Release(r, g) == Abort(r, g, ORIGIN_FINISHED)
  {
    if r.leaders[g].stage == Held { AbortSettles(r, g, g, ORIGIN_FINISHED); }
  }

  // Staging an open leader hands its response to the continuation, to be acknowledged later.
  ghost predicate StagedIs(r: Registry, staged: Registry, g: SeqNo)
    requires g in r.leaders && g in r.tickets
  {
    && staged == r.(leaders := staged.leaders, tickets := staged.tickets)
    && staged.leaders == r.leaders[g := r.leaders[g].(stage := Staged)]
    && staged.tickets == r.tickets[g := r.tickets[g].(mail := Delivery(r.leaders[g].response, AckPending))]
  }

  lemma StagedFacts(r: Registry, g: SeqNo)
    requires Consistent(r) && Running(r, g) && r.tickets[g].open
    ensures StagedIs(r, Next(r, StageLeader(g)), g)
  {
    assert LeaderOk(r, g);
    if r.leaders[g].stage == Staged {
      assert r.leaders == r.leaders[g := r.leaders[g]] && r.tickets == r.tickets[g := r.tickets[g]];
    }
  }

  lemma StagedOnly(r: Registry, staged: Registry, next: Registry, g: SeqNo, cause: string)
    requires Running(r, g) && StagedIs(r, staged, g)
    ensures Deliverable(staged, g) <==> Deliverable(r, g)
    ensures Delivered(staged, next, g) ==> Delivered(r, next, g)
    ensures Withdrawn(staged, next, g, cause) ==> Withdrawn(r, next, g, cause)
  {
  }

  lemma ConcludeDelivers(r: Registry, g: SeqNo)
    requires Consistent(r) && Running(r, g) && r.tickets[g].open && r.leaders[g].stage == Staged
    ensures if Deliverable(r, g) then Delivered(r, Conclude(r, g), g)
            else Withdrawn(r, Conclude(r, g), g, PUBLICATION_FAILED)
  {
    ResolvedFits();
    if Owns(r, g) { OwnedRemovalPublishes(r, g, RESOLVED); }
    if Deliverable(r, g) { ConcludeSucceeds(r, g); } else { ConcludeFails(r, g); }
  }

  lemma ConcludeSucceeds(r: Registry, g: SeqNo)
    requires Running(r, g) && r.tickets[g].open && r.leaders[g].stage == Staged && Owns(r, g)
    requires var resolved := Publish(r, Removed(r.leaders[g].id, RESOLVED));
             resolved.Some? && Publishes(r, resolved.value, Removed(r.leaders[g].id, RESOLVED))
    ensures Delivered(r, Conclude(r, g), g)
  {
    ResolvedTouches(r, Publish(r, Removed(r.leaders[g].id, RESOLVED)).value, g);
  }

  lemma ConcludeFails(r: Registry, g: SeqNo)
    requires Consistent(r) && Running(r, g) && r.tickets[g].open
    requires !Owns(r, g) || Publish(r, Removed(r.leaders[g].id, RESOLVED)).None?
    ensures Withdrawn(r, Conclude(r, g), g, PUBLICATION_FAILED)
  {
    PublicationFailedFits();
    AbortWithdraws(r, g, PUBLICATION_FAILED);
  }

  lemma ResolvedTouches(r: Registry, mid: Registry, g: SeqNo)
    requires Running(r, g) && r.leaders[g].stage == Staged && mid == r.(stream := mid.stream)
    requires Publishes(r, mid, Removed(r.leaders[g].id, RESOLVED))
    ensures Delivered(r, Settle(Attribute(mid, g), g, true), g)
  {
  }

  // ---- Requests ----

  // A request is let through exactly when it is well formed, its run is registered, its id is new to the
  // session, the run has room, generations are left, and the event that announces it can be published.
  ghost predicate Admissible(r: Registry, id: Identity, request: Request) {
    && request.wellFormed && (r.enabled || request.kind == TOOL_APPROVAL) && id.turnId in r.runs
    && (forall other | other in r.entries :: other.requestId != id.requestId)
    && |WaitingOf(r, id.turnId)| < MAX_PENDING_PER_RUN && r.nextGeneration < LAST_SEQ
    && Pending(id, request).Valid()
    && (r.enabled ==> Room(r.stream) && FitsIn(r.stream.snapshot.pending, Requested(Pending(id, request))))
  }

  // It then waits under the next generation, with a continuation of its own, and is announced.
  ghost predicate Asked(r: Registry, next: Registry, id: Identity, request: Request, origin: Origin, g: SeqNo) {
    && id in next.entries && next.entries[id] == Waiting(request, g, origin)
    && g in next.tickets && next.tickets[g] == Ticket(id, true, Empty) && g !in next.leaders
    && OnlyTouches(r, next, id, g) && Publishes(r, next, Requested(Pending(id, request)))
  }

  lemma BeginAsks(r: Registry, id: Identity, request: Request, origin: Origin)
    requires Consistent(r)
    ensures var (next, answer) := Begin(r, id, request, origin);
            && (answer.Ok? <==> Admissible(r, id, request))
            && (answer.Ok? ==> answer.value == r.nextGeneration && next.nextGeneration == r.nextGeneration + 1
                               && Asked(r, next, id, request, origin, r.nextGeneration))
            && (answer.Err? ==> next == r.(nextGeneration := next.nextGeneration))
            && (answer == Err(InvalidRequest) ==> !request.wellFormed || !Pending(id, request).Valid())
  {
    var g := r.nextGeneration;
    if BeginRefusal(r, id, request).None? && Pending(id, request).Valid() {
      assert g !in r.leaders && g !in r.tickets by { assert LeaderOk(r, g) && TicketOk(r, g); }
      AskAsks(r.(nextGeneration := g + 1), id, request, origin, g);
    }
  }

  lemma AskAsks(r: Registry, id: Identity, request: Request, origin: Origin, g: SeqNo)
    requires StreamOk(r.enabled, r.stream) && Pending(id, request).Valid() && g !in r.leaders && g !in r.tickets
    requires id !in r.entries
    ensures var (next, answer) := Ask(r, id, request, origin, g);
            && (answer.Ok? <==>
                  (r.enabled ==> Room(r.stream) && FitsIn(r.stream.snapshot.pending, Requested(Pending(id, request)))))
            && (if answer.Ok? then answer.value == g && next.nextGeneration == r.nextGeneration
                                   && Asked(r, next, id, request, origin, g)
                else next == r && answer == Err(Unavailable))
  {
    RequestIsPublished(r, Pending(id, request));
  }

  lemma RequestIsPublished(r: Registry, p: Pending)
    requires StreamOk(r.enabled, r.stream) && p.Valid()
    ensures Publish(r, Requested(p)).Some? <==>
              (r.enabled ==> Room(r.stream) && FitsIn(r.stream.snapshot.pending, Requested(p)))
    ensures Publish(r, Requested(p)).Some? ==> Publishes(r, Publish(r, Requested(p)).value, Requested(p))
  {
    if r.enabled { CommitMeaning(r.stream, Requested(p)); }
  }

  // ---- Responses ----

  // A response leads exactly when its request still waits under the generation it was found with, and
  // somebody waits for the answer.
  predicate Leading(r: Registry, requireEnabled: bool, id: Identity, g: SeqNo) {
    && (requireEnabled ==> r.enabled)
    && id in r.entries && r.entries[id].Waiting? && r.entries[id].generation == g
    && g in r.tickets && r.tickets[g].open
  }

  // Nobody waits any more: the request leaves the table.
  predicate Orphaned(r: Registry, requireEnabled: bool, id: Identity, g: SeqNo) {
    && (requireEnabled ==> r.enabled)
    && id in r.entries && r.entries[id].Waiting? && r.entries[id].generation == g
    && !(g in r.tickets && r.tickets[g].open)
  }

  lemma RespondDecides(r: Registry, requireEnabled: bool, id: Identity, response: Json, g: SeqNo)
    requires Consistent(r)
    ensures var (next, won) := Respond(r, requireEnabled, id, response, g);
            && (won.Leads? <==> Leading(r, requireEnabled, id, g))
            && (won.Leads? ==> won.generation == g && Led(r, next, id, response, g))
            && (Orphaned(r, requireEnabled, id, g) ==>
                  && won == Rejected(if HasRoom(r) then NotFound else Unavailable)
                  && Cleared(r, next, id, g, ORIGIN_FINISHED))
            && (!Leading(r, requireEnabled, id, g) && !Orphaned(r, requireEnabled, id, g) ==> next == r)
    // Every other answer, in the order of the checks.
    ensures !Leading(r, requireEnabled, id, g) && !Orphaned(r, requireEnabled, id, g) ==>
      Respond(r, requireEnabled, id, response, g).1 ==
        if requireEnabled && !r.enabled then Rejected(Unavailable)
        else if id !in r.entries || r.entries[id].Waiting? then Rejected(NotFound)
        else if r.entries[id].digest == Canonical(response) then Follows(r.entries[id].generation)
        else Loses
  {
    if Leading(r, requireEnabled, id, g) || Orphaned(r, requireEnabled, id, g) {
      ResolveDecides(r, id, response, r.entries[id].request, g);
    }
  }

  lemma ResolveDecides(r: Registry, id: Identity, response: Json, request: Request, g: SeqNo)
    requires Consistent(r) && id in r.entries && r.entries[id].Waiting? && r.entries[id].generation == g
    ensures var (next, won) := Resolve(r, id, response, request, g);
            if g in r.tickets && r.tickets[g].open then won == Leads(g) && Led(r, next, id, response, g)
            else
              && won == Rejected(if HasRoom(r) then NotFound else Unavailable)
              && Cleared(r, next, id, g, ORIGIN_FINISHED)
  {
    if g in r.tickets && r.tickets[g].open {
      ResolveLeads(r, id, response, request, g);
    } else {
      ResolveDrops(r, id, response, request, g);
    }
  }

  lemma ResolveLeads(r: Registry, id: Identity, response: Json, request: Request, g: SeqNo)
    requires id in r.entries && g in r.tickets && r.tickets[g].open
    ensures Resolve(r, id, response, request, g).1 == Leads(g)
    ensures Led(r, Resolve(r, id, response, request, g).0, id, response, g)
  {
  }

  lemma ResolveDrops(r: Registry, id: Identity, response: Json, request: Request, g: SeqNo)
    requires Consistent(r) && id in r.entries && r.entries[id].Waiting? && r.entries[id].generation == g
    requires g !in r.tickets || !r.tickets[g].open
    ensures var (next, won) := Resolve(r, id, response, request, g);
            won == Rejected(if HasRoom(r) then NotFound else Unavailable) && Cleared(r, next, id, g, ORIGIN_FINISHED)
  {
    OriginFinishedFits();
    WaitingRemovalPublishes(r, id, ORIGIN_FINISHED);
  }

  // The leader holds the response and its fingerprint; nothing is published yet.
  ghost predicate Led(r: Registry, next: Registry, id: Identity, response: Json, g: SeqNo) {
    && g in next.leaders && next.leaders[g] == Leader(id, Canonical(response), response, Held)
    && id in next.entries && next.entries[id].Resolved?
    && next.entries[id].digest == Canonical(response) && next.entries[id].generation == g
    && next.tickets == r.tickets && next.stream == r.stream && OnlyTouches(r, next, id, g)
  }

  // ---- Clearing ----

  // A waiting request leaves the table, with an event that names the cause while there is room for one.
  ghost predicate Cleared(r: Registry, next: Registry, id: Identity, g: SeqNo, cause: string) {
    && id !in next.entries && OnlyTouches(r, next, id, g) && next.leaders == r.leaders
    && if HasRoom(r) then Publishes(r, next, Removed(id, cause)) else next.stream == r.stream
  }

  lemma WaitingRemovalPublishes(r: Registry, id: Identity, cause: string)
    requires Consistent(r) && id in r.entries && r.entries[id].Waiting? && BoundedText(cause, MAX_ID_BYTES)
    ensures var gone := r.(entries := r.entries - {id});
            && (Publish(gone, Removed(id, cause)).Some? <==> HasRoom(r))
            && Cleared(r, TryPublish(gone, Removed(id, cause)), id, r.entries[id].generation, cause)
  {
    assert EntryOk(r, id);
    RemovalIsPublished(r, id, cause);
    assert r.entries - {id} - {id} == r.entries - {id};
  }

  // The removal of an undecided request is published while there is room.
  lemma RemovalIsPublished(r: Registry, id: Identity, cause: string)
    requires Consistent(r) && Undecided(r, id) && id.Valid() && BoundedText(cause, MAX_ID_BYTES)
    ensures var removal := Publish(r, Removed(id, cause));
            (removal.Some? <==> HasRoom(r)) && (HasRoom(r) ==> Publishes(r, removal.value, Removed(id, cause)))
    ensures forall entries ::
              Publish(r.(entries := entries), Removed(id, cause)) ==
              match Publish(r, Removed(id, cause)) case None => None case Some(next) => Some(next.(entries := entries))
  {
    if r.enabled {
      RemovalCommits(r, id, cause);
      CommitMeaning(r.stream, Removed(id, cause));
    }
  }

  // A request is cleared exactly while it waits under the generation given; its continuation learns that
  // it was cancelled.
  lemma ClearWithdraws(r: Registry, id: Identity, g: SeqNo, cause: string)
    requires Consistent(r) && OtherCause(cause)
    ensures var next := ClearExact(r, id, g, cause);
            if id in r.entries && r.entries[id].Waiting? && r.entries[id].generation == g then
              && Cleared(r, next, id, g, cause) && g in next.tickets
              && next.tickets[g] == (if r.tickets[g].open then r.tickets[g].(mail := Cancelled) else r.tickets[g])
            else next == r
  {
    if id in r.entries && r.entries[id].Waiting? && r.entries[id].generation == g {
      assert EntryOk(r, id);
      WaitingRemovalPublishes(r, id, cause);
      MailTouches(r, TryPublish(r.(entries := r.entries - {id}), Removed(id, cause)), id, g, cause);
    }
  }

  lemma MailTouches(r: Registry, mid: Registry, id: Identity, g: SeqNo, cause: string)
    requires Cleared(r, mid, id, g, cause) && g in mid.tickets
    ensures Cleared(r, mid.(tickets := mid.tickets[g := mid.tickets[g].(mail := Cancelled)]), id, g, cause)
  {
  }

  // The log went on with the removal of each request, in order.
  ghost predicate LogsRemovals(was: seq<Envelope>, now: seq<Envelope>, ids: seq<Identity>, cause: string) {
    && |now| == |was| + |ids| && was <= now
    && forall k | 0 <= k < |ids| :: now[|was| + k].payload == Removed(ids[k], cause)
  }

  lemma LogsFirst(was: seq<Envelope>, mid: seq<Envelope>, now: seq<Envelope>, ids: seq<Identity>, cause: string)
    requires ids != [] && LogsRemovals(was, mid, [ids[0]], cause) && LogsRemovals(mid, now, ids[1..], cause)
    ensures LogsRemovals(was, now, ids, cause)
  {
    forall k | 0 <= k < |ids| ensures now[|was| + k].payload == Removed(ids[k], cause) {
      if k > 0 {
        assert now[|mid| + (k - 1)].payload == Removed(ids[1..][k - 1], cause);
      } else {
        assert now[|was|] == mid[|was|] && mid[|was| + 0].payload == Removed([ids[0]][0], cause);
      }
    }
  }

  ghost predicate AllWait(r: Registry, ids: seq<Identity>) {
    Distinct(ids) && forall id | id in ids :: id in r.entries && r.entries[id].Waiting?
  }

  lemma RestWaits(r: Registry, next: Registry, ids: seq<Identity>)
    requires ids != [] && AllWait(r, ids) && next.entries - {ids[0]} == r.entries - {ids[0]}
    ensures AllWait(next, ids[1..])
  {
    var rest := ids[1..];
    forall x | x in rest ensures x in next.entries && next.entries[x].Waiting? {
      var k :| 0 <= k < |rest| && rest[k] == x;
      assert ids[0] != ids[k + 1];
      assert x in r.entries - {ids[0]} && (next.entries - {ids[0]})[x] == next.entries[x];
    }
    forall i, j | 0 <= i < j < |rest| ensures rest[i] != rest[j] { assert ids[i + 1] != ids[j + 1]; }
  }

  // Clearing several waiting requests publishes the removal of each, in order.
  lemma {:induction false} ClearAllPublishes(r: Registry, ids: seq<Identity>, cause: string)
    requires Consistent(r) && OtherCause(cause) && r.enabled && AllWait(r, ids)
    requires |r.stream.log| + |ids| <= LAST_SEQ
    ensures LogsRemovals(r.stream.log, ClearAll(r, ids, cause).stream.log, ids, cause)
    decreases |ids|
  {
    if ids != [] {
      var id := ids[0];
      var next := ClearExact(r, id, r.entries[id].generation, cause);
      ClearWithdraws(r, id, r.entries[id].generation, cause);
      ClearExactKeeps(r, id, r.entries[id].generation, cause);
      RestWaits(r, next, ids);
      ClearAllPublishes(next, ids[1..], cause);
      LogsFirst(r.stream.log, next.stream.log, ClearAll(next, ids[1..], cause).stream.log, ids, cause);
    }
  }

  // ---- Runs ----

  // A run keeps the identity it was registered with, and only that identity unregisters it.
  lemma RegistrationSteps(r: Registry, turnId: string, identity: nat)
    ensures var next := Next(r, RegisterRun(turnId, identity));
            && next == r.(runs := next.runs) && next.runs - {turnId} == r.runs - {turnId}
            && turnId in next.runs && next.runs[turnId] == if turnId in r.runs then r.runs[turnId] else identity
    ensures var next := Next(r, UnregisterRun(turnId, identity));
            && next == r.(runs := next.runs) && next.runs - {turnId} == r.runs - {turnId}
            && (turnId in next.runs <==> turnId in r.runs && r.runs[turnId] != identity)
            && (turnId in next.runs ==> next.runs[turnId] == r.runs[turnId])
  {
    assert r.runs - {turnId} - {turnId} == r.runs - {turnId};
  }

  // Retiring takes the run's entries away and nothing else.
  lemma RetirementStep(r: Registry, turnId: string, identity: nat)
    ensures var next := Next(r, RetireRun(turnId, identity));
            if Retirable(r, turnId, identity) then
              && next == r.(runs := r.runs - {turnId}, entries := next.entries)
              && (forall id | id in next.entries :: id in r.entries && next.entries[id] == r.entries[id])
              && (forall id | id in r.entries :: id in next.entries <==> id.turnId != turnId)
            else next == r
  {
  }

  // ---- An answer arrives ----

  // Register, begin, respond, release: for every first request of a run the response is returned, and the
  // log says that the request was asked and resolved.
  lemma AnswerArrives(first: Snapshot, id: Identity, request: Request, response: Json)
    requires first.Valid() && first.pending == [] && first.cursor.seqNo == 0
    requires Pending(id, request).Valid()
    ensures var last := After(Start(true, first), [
              RegisterRun(id.turnId, 7), BeginRequest(id, request, Core),
              CommitResponse(true, id, response, 1), ReleaseLeader(1)]);
            && Outcome(last, 1) == Some(true) && Value(last, 1) == Some(response) && |last.stream.log| == 2
            && last.stream.log[0].payload == Requested(Pending(id, request))
            && last.stream.log[1].payload == Removed(id, RESOLVED)
  {
    var a, b := RegisterRun(id.turnId, 7), BeginRequest(id, request, Core);
    var c, d := CommitResponse(true, id, response, 1), ReleaseLeader(1);
    var r0 := Start(true, first);
    var r1 := Next(r0, a);
    var r2 := Next(r1, b);
    FourSteps(r0, a, b, c, d);
    StartConsistent(true, first);
    StepKeeps(r0, a);
    FirstRequest(r1, id, request);
    assert r1.stream.log == [] && r1.nextGeneration == 1 && r1.enabled;
    BeginAsks(r1, id, request, Core);
    StepKeeps(r1, b);
    assert Begin(r1, id, request, Core).1.Ok? by { FirstIsAdmissible(r1, id, request); }
    AnswerAndRelease(r2, id, response);
  }

  lemma FirstIsAdmissible(r: Registry, id: Identity, request: Request)
    requires r.enabled && Room(r.stream) && r.stream.snapshot.pending == [] && r.entries == map[]
    requires r.nextGeneration == 1 && id.turnId in r.runs && Pending(id, request).Valid()
    ensures Admissible(r, id, request)
  {
    assert WaitingOf(r, id.turnId) == {};
    assert IdsOf(r.stream.snapshot.pending) == [];
  }

  lemma AnswerAndRelease(r: Registry, id: Identity, response: Json)
    requires Consistent(r) && r.enabled && |r.stream.log| == 1
    requires id in r.entries && r.entries[id].Waiting? && r.entries[id].generation == 1
    requires 1 in r.tickets && r.tickets[1].open
    ensures var led := Next(r, CommitResponse(true, id, response, 1));
            var next := Next(led, ReleaseLeader(1));
            && Outcome(next, 1) == Some(true) && Value(next, 1) == Some(response) && |next.stream.log| == 2
            && r.stream.log <= next.stream.log && next.stream.log[1].payload == Removed(id, RESOLVED)
  {
    var led := Next(r, CommitResponse(true, id, response, 1));
    RespondDecides(r, true, id, response, 1);
    RespondKeeps(r, true, id, response, 1);
    assert Led(r, led, id, response, 1);
    assert Deliverable(led, 1);
    ReleaseDelivers(led, 1);
  }
}
