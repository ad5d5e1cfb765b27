// The results of the response transaction that callers rely on.
module ResponseOutcomes {
  import opened Basics
  import opened CanonicalJson
  import opened Interactions
  import opened Convergence
  import opened ResponseSteps
  import opened ResponseAgreement

  // What followers of a leader read from its completion.
  function Outcome(r: Registry, g: SeqNo): Option<bool> {
    if g in r.leaders && r.leaders[g].stage.Done? then Some(r.leaders[g].stage.ok) else None
  }

  // What the waiting continuation returns, if it returns a value.
  function Value(r: Registry, g: SeqNo): Option<Json> {
    if g in r.tickets && r.tickets[g].mail.Delivery? && r.tickets[g].mail.ack.AckOk?
      then Some(r.tickets[g].mail.response)
    else None
  }

  // The log holds a resolution that this leader published.
  ghost predicate ResolvedInLog(r: Registry, g: SeqNo) {
    && g in r.leaders && g in r.published
    && var n := r.published[g];
       && 1 <= n <= |r.stream.log|
       && r.stream.log[n - 1].payload == Removed(r.leaders[g].id, RESOLVED)
       && forall h | h in r.published && r.published[h] == n :: h == g
  }

  // The leader's success, the success its followers see, the value its continuation returns and
  // its resolution in the log are one event.
  lemma OutcomesCoincide(r: Registry, g: SeqNo)
    requires Consistent(r) && r.enabled && g in r.leaders
    ensures Outcome(r, g) == Some(true) <==> ResolvedInLog(r, g)
    ensures Outcome(r, g) == Some(true) <==> Value(r, g).Some?
    ensures Value(r, g).Some? ==> Value(r, g).value == r.leaders[g].response
  {
    SuccessIsReturned(r, g);
    SuccessIsLogged(r, g);
  }

  lemma SuccessIsReturned(r: Registry, g: SeqNo)
    requires LeaderOk(r, g) && g in r.leaders
    ensures Outcome(r, g) == Some(true) <==> Value(r, g).Some?
    ensures Value(r, g).Some? ==> Value(r, g).value == r.leaders[g].response
  {
  }

  lemma SuccessIsLogged(r: Registry, g: SeqNo)
    requires History(r) && r.enabled && g in r.leaders
    ensures Outcome(r, g) == Some(true) <==> ResolvedInLog(r, g)
  {
    assert PublishedOk(r, g);
    if g in r.published {
      var n := r.published[g];
      assert ResolutionOk(r, n);
      forall h | h in r.published && r.published[h] == n ensures h == g { assert PublishedOk(r, h); }
    }
  }

  // No value without a leader, and no resolution in the log that no leader published.
  lemma NothingElseResolves(r: Registry, g: SeqNo, n: nat)
    requires Consistent(r)
    ensures Value(r, g).Some? ==> g in r.leaders
    ensures n < |r.stream.log| && r.stream.log[n].payload.Removed? && r.stream.log[n].payload.cause == RESOLVED ==>
      exists h :: h in r.published && r.published[h] == n + 1 && Outcome(r, h) == Some(true)
  {
    assert TicketOk(r, g);
    assert ResolutionOk(r, n + 1);
    if n + 1 in r.resolvedBy { assert PublishedOk(r, r.resolvedBy[n + 1]); }
  }

  // ---- A leader signals once ----

  lemma AbortSettles(r: Registry, g: SeqNo, h: SeqNo, cause: string)
    ensures Outcome(r, h).Some? ==> Outcome(Abort(r, g, cause), h) == Outcome(r, h)
    ensures Running(r, g) ==> Outcome(Abort(r, g, cause), g) == Some(false)
  {
  }

  lemma StageSettles(r: Registry, g: SeqNo, h: SeqNo)
    ensures Outcome(r, h).Some? ==> Outcome(StageDelivery(r, g), h) == Outcome(r, h)
    ensures Running(r, g) ==> Running(StageDelivery(r, g), g) || Outcome(StageDelivery(r, g), g) == Some(false)
  {
    AbortSettles(r, g, h, ORIGIN_FINISHED);
    AbortSettles(r, g, g, ORIGIN_FINISHED);
  }

  lemma ConcludeSettles(r: Registry, g: SeqNo, h: SeqNo)
    ensures Outcome(r, h).Some? ==> Outcome(Conclude(r, g), h) == Outcome(r, h)
    ensures Running(r, g) ==> Outcome(Conclude(r, g), g).Some?
  {
    AbortSettles(r, g, h, ORIGIN_FINISHED);
    AbortSettles(r, g, h, PUBLICATION_FAILED);
  }

  // Releasing a leader always settles it.
  lemma ReleaseSettles(r: Registry, g: SeqNo, h: SeqNo)
    ensures Outcome(r, h).Some? ==> Outcome(Release(r, g), h) == Outcome(r, h)
    ensures Running(r, g) ==> Outcome(Release(r, g), g).Some?
  {
    StageSettles(r, g, h);
    StageSettles(r, g, g);
    ConcludeSettles(StageDelivery(r, g), g, h);
    ConcludeSettles(StageDelivery(r, g), g, g);
  }

  // Asking, and clearing what waits, touch no leader and no response that won.
  ghost predicate Aside(r: Registry, next: Registry) {
    && next.leaders == r.leaders
    && forall id | id in r.entries && r.entries[id].Resolved? :: id in next.entries && next.entries[id] == r.entries[id]
  }

  lemma BeginIsAside(r: Registry, id: Identity, request: Request, origin: Origin)
    ensures Aside(r, Begin(r, id, request, origin).0)
  {
  }

  lemma RemovedWaitingIsAside(r: Registry, next: Registry, id: Identity)
    requires next.leaders == r.leaders
    requires next.entries == r.entries
             || (id in r.entries && r.entries[id].Waiting? && next.entries == r.entries - {id})
    ensures Aside(r, next)
  {
  }

  lemma ClearIsAside(r: Registry, id: Identity, g: SeqNo, cause: string)
    ensures Aside(r, ClearExact(r, id, g, cause))
  {
    RemovedWaitingIsAside(r, ClearExact(r, id, g, cause), id);
  }

  lemma {:induction false} ClearAllIsAside(r: Registry, ids: seq<Identity>, cause: string)
    ensures Aside(r, ClearAll(r, ids, cause))
    decreases |ids|
  {
    if ids != [] {
      var id := ids[0];
      if id in r.entries {
        ClearIsAside(r, id, r.entries[id].generation, cause);
        ClearAllIsAside(ClearExact(r, id, r.entries[id].generation, cause), ids[1..], cause);
      } else {
        ClearAllIsAside(r, ids[1..], cause);
      }
    }
  }

  // A response leads only a request that still waits, under a generation no leader has.
  lemma RespondIsAside(r: Registry, requireEnabled: bool, id: Identity, response: Json, g: SeqNo)
    requires Books(r)
    ensures KeepsWinners(r, Respond(r, requireEnabled, id, response, g).0)
  {
    var look := LookUp(r, requireEnabled, id, response);
    if look.Candidate? && look.generation == g { ResolveIsAside(r, id, response, look.request, g); }
  }

  ghost predicate KeepsWinners(r: Registry, next: Registry) {
    && (forall h | h in r.leaders :: h in next.leaders && next.leaders[h] == r.leaders[h])
    && (forall x | x in r.entries && r.entries[x].Resolved? :: x in next.entries && next.entries[x] == r.entries[x])
  }

  lemma NewWinner(r: Registry, next: Registry, id: Identity, g: SeqNo)
    requires Books(r) && id in r.entries && r.entries[id].Waiting? && r.entries[id].generation == g
    requires next.leaders == r.leaders || (g in next.leaders && next.leaders == r.leaders[g := next.leaders[g]])
    requires next.entries == r.entries - {id}
             || (id in next.entries && next.entries == r.entries[id := next.entries[id]])
    ensures KeepsWinners(r, next)
  {
    assert EntryOk(r, id);
  }

  lemma ResolveIsAside(r: Registry, id: Identity, response: Json, request: Request, g: SeqNo)
    requires Books(r) && id in r.entries && r.entries[id].Waiting? && r.entries[id].generation == g
    ensures KeepsWinners(r, Resolve(r, id, response, request, g).0)
  {
    NewWinner(r, Resolve(r, id, response, request, g).0, id, g);
  }

  // However a run continues, a signalled outcome never changes.
  lemma OutcomeIsFinal(r: Registry, step: Step, g: SeqNo)
    requires Consistent(r) && Outcome(r, g).Some?
    ensures Outcome(Next(r, step), g) == Outcome(r, g)
  {
    match step
    case BeginRequest(id, request, origin) => BeginIsAside(r, id, request, origin);
    case CommitResponse(require, id, response, h) => RespondIsAside(r, require, id, response, h);
    case StageLeader(h) => StageSettles(r, h, g);
    case ReleaseLeader(h) => ReleaseSettles(r, h, g);
    case AbortLeader(h, cause) => AbortSettles(r, h, g, cause);
    case DropLeader(h) => AbortSettles(r, h, g, PUBLICATION_FAILED);
    case ClearRequest(id, h, cause) => ClearIsAside(r, id, h, cause);
    case ClearRun(ids, cause) => ClearAllIsAside(r, ids, cause);
    case _ =>
  }

  // The fallback of abort_resolved_exact, which edits the snapshot without an event, is dead
  // while cursor space is left.
  lemma AbortPublishes(r: Registry, g: SeqNo, cause: string)
    requires Consistent(r) && Running(r, g) && Owns(r, g) && BoundedText(cause, MAX_ID_BYTES)
    requires r.enabled ==> Room(r.stream)
    ensures Publish(r, Removed(r.leaders[g].id, cause)).Some?
  {
    assert LeaderOk(r, g);
    if r.enabled { RemovalCommits(r, r.leaders[g].id, cause); }
  }

  // ---- Equal and different responses ----

  // Once a response leads, a second one joins it exactly when it is the same up to the order
  // of object keys, and is refused otherwise.
  lemma SecondResponse(r: Registry, id: Identity, response: Json)
    requires Consistent(r) && id in r.entries && r.entries[id].Resolved?
    ensures var g := r.entries[id].generation;
            && g in r.leaders
            && (WellFormed(response) && WellFormed(r.leaders[g].response) ==>
                  && LookUp(r, false, id, response) ==
                     (if SameUpToKeyOrder(r.leaders[g].response, response) then Follow(g) else Conflict)
                  && Respond(r, false, id, response, g) ==
                     (r, if SameUpToKeyOrder(r.leaders[g].response, response) then Follows(g) else Loses))
  {
    assert EntryOk(r, id);
    var g := r.entries[id].generation;
    assert LeaderOk(r, g);
    if WellFormed(response) && WellFormed(r.leaders[g].response) {
      CanonicalDecides(r.leaders[g].response, response);
    }
  }

  // The entry of a response that won, or the reason it is gone: its leader failed, or its run retired.
  ghost predicate Kept(r: Registry, next: Registry, id: Identity) {
    id in r.entries && r.entries[id].Resolved? ==>
      (id in next.entries && next.entries[id] == r.entries[id])
        || Outcome(next, r.entries[id].generation) == Some(false)
  }

  lemma AbortKeepsOthers(r: Registry, g: SeqNo, cause: string, id: Identity)
    requires Books(r)
    ensures Kept(r, Abort(r, g, cause), id)
  {
    if Running(r, g) {
      AbortSettles(r, g, g, cause);
      AbortedEntries(r, g, cause);
      assert LeaderOk(r, g);
      assert EntryOk(r, id);
    }
  }

  lemma AbortedEntries(r: Registry, g: SeqNo, cause: string)
    requires Running(r, g)
    ensures Abort(r, g, cause).entries == if Owns(r, g) then r.entries - {r.leaders[g].id} else r.entries
  {
  }

  lemma StageKeepsOthers(r: Registry, g: SeqNo, id: Identity)
    requires Books(r)
    ensures Kept(r, StageDelivery(r, g), id)
  {
    AbortKeepsOthers(r, g, ORIGIN_FINISHED, id);
  }

  lemma PublishedKeepsOthers(r: Registry, g: SeqNo, id: Identity)
    requires Running(r, g) && PublishResolved(r, g).Some?
    ensures Kept(r, Settle(PublishResolved(r, g).value, g, true), id)
  {
  }

  lemma KeptThrough(r: Registry, mid: Registry, next: Registry, id: Identity)
    requires Kept(r, mid, id) && Kept(mid, next, id)
    requires id in r.entries && Outcome(mid, r.entries[id].generation).Some? ==>
      Outcome(next, r.entries[id].generation) == Outcome(mid, r.entries[id].generation)
    ensures Kept(r, next, id)
  {
  }

  lemma ConcludeKeepsOthers(r: Registry, g: SeqNo, id: Identity)
    requires Books(r)
    ensures Kept(r, Conclude(r, g), id)
  {
    if Running(r, g) {
      if r.tickets[g].open && PublishResolved(r, g).Some? {
        PublishedKeepsOthers(r, g, id);
      } else {
        AbortKeepsOthers(r, g, ORIGIN_FINISHED, id);
        AbortKeepsOthers(r, g, PUBLICATION_FAILED, id);
      }
    }
  }

  lemma ReleaseKeepsOthers(r: Registry, g: SeqNo, id: Identity)
    requires Consistent(r)
    ensures Kept(r, Release(r, g), id)
  {
    StageKeepsOthers(r, g, id);
    StageKeeps(r, g);
    ConcludeKeepsOthers(StageDelivery(r, g), g, id);
    if id in r.entries { ConcludeSettles(StageDelivery(r, g), g, r.entries[id].generation); }
    KeptThrough(r, StageDelivery(r, g), Release(r, g), id);
  }

  // So the answer to a second response stands until the leader fails or the run retires.
  lemma WinnerStays(r: Registry, step: Step, id: Identity)
    requires Consistent(r)
    requires step.RetireRun? ==> step.turnId != id.turnId
    ensures Kept(r, Next(r, step), id)
  {
    match step
    case BeginRequest(x, request, origin) => BeginIsAside(r, x, request, origin);
    case CommitResponse(require, x, response, h) => RespondIsAside(r, require, x, response, h);
    case StageLeader(g) => StageKeepsOthers(r, g, id);
    case ReleaseLeader(g) => ReleaseKeepsOthers(r, g, id);
    case AbortLeader(g, cause) => AbortKeepsOthers(r, g, cause, id);
    case DropLeader(g) => AbortKeepsOthers(r, g, PUBLICATION_FAILED, id);
    case ClearRequest(x, h, cause) => ClearIsAside(r, x, h, cause);
    case ClearRun(ids, cause) => ClearAllIsAside(r, ids, cause);
    case _ =>
  }

  // ---- Request ids ----

  // A request id names one request, whatever its run: that is how a response without a run is found.
  predicate UniqueIds(r: Registry) {
    forall a, b | a in r.entries && b in r.entries && a.requestId == b.requestId :: a == b
  }

  lemma FewerIds(r: Registry, next: Registry)
    requires UniqueIds(r) && next.entries.Keys <= r.entries.Keys
    ensures UniqueIds(next)
  {
    forall a, b | a in next.entries && b in next.entries && a.requestId == b.requestId ensures a == b {
      assert a in r.entries.Keys && b in r.entries.Keys;
    }
  }

  lemma BeginKeepsUnique(r: Registry, id: Identity, request: Request, origin: Origin)
    requires UniqueIds(r)
    ensures UniqueIds(Begin(r, id, request, origin).0)
  {
    var next := Begin(r, id, request, origin).0;
    BeginEntries(r, id, request, origin);
    if next.entries.Keys == r.entries.Keys {
      FewerIds(r, next);
    } else {
      forall a, b | a in next.entries.Keys && b in next.entries.Keys && a.requestId == b.requestId ensures a == b {}
    }
  }

  lemma BeginEntries(r: Registry, id: Identity, request: Request, origin: Origin)
    ensures var next := Begin(r, id, request, origin).0;
            next.entries.Keys == r.entries.Keys
            || (next.entries.Keys == r.entries.Keys + {id}
                && forall other :: other in r.entries ==> other.requestId != id.requestId)
  {
  }

  lemma AbortShrinks(r: Registry, g: SeqNo, cause: string)
    ensures Abort(r, g, cause).entries.Keys <= r.entries.Keys
  {
    if Running(r, g) { AbortedEntries(r, g, cause); }
  }

  lemma ConcludeShrinks(r: Registry, g: SeqNo)
    ensures Conclude(r, g).entries.Keys <= r.entries.Keys
  {
    AbortShrinks(r, g, ORIGIN_FINISHED);
    AbortShrinks(r, g, PUBLICATION_FAILED);
    if Running(r, g) && PublishResolved(r, g).Some? { PublishedEntries(r, g); }
  }

  lemma PublishedEntries(r: Registry, g: SeqNo)
    requires g in r.leaders && PublishResolved(r, g).Some?
    ensures PublishResolved(r, g).value.entries == r.entries
  {
  }

  lemma StageShrinks(r: Registry, g: SeqNo)
    ensures StageDelivery(r, g).entries.Keys <= r.entries.Keys
  {
    AbortShrinks(r, g, ORIGIN_FINISHED);
  }

  lemma ClearShrinks(r: Registry, id: Identity, g: SeqNo, cause: string)
    ensures ClearExact(r, id, g, cause).entries.Keys <= r.entries.Keys
  {
  }

  lemma {:induction false} ClearAllShrinks(r: Registry, ids: seq<Identity>, cause: string)
    ensures ClearAll(r, ids, cause).entries.Keys <= r.entries.Keys
    decreases |ids|
  {
    if ids != [] {
      var id := ids[0];
      if id in r.entries {
        ClearShrinks(r, id, r.entries[id].generation, cause);
        ClearAllShrinks(ClearExact(r, id, r.entries[id].generation, cause), ids[1..], cause);
      } else {
        ClearAllShrinks(r, ids[1..], cause);
      }
    }
  }

  lemma ResolveShrinks(r: Registry, id: Identity, response: Json, request: Request, g: SeqNo)
    requires id in r.entries
    ensures Resolve(r, id, response, request, g).0.entries.Keys <= r.entries.Keys
  {
  }

  lemma RespondShrinks(r: Registry, requireEnabled: bool, id: Identity, response: Json, g: SeqNo)
    ensures Respond(r, requireEnabled, id, response, g).0.entries.Keys <= r.entries.Keys
  {
    var look := LookUp(r, requireEnabled, id, response);
    if look.Candidate? && look.generation == g { ResolveShrinks(r, id, response, look.request, g); }
  }

  // Every step keeps request ids unique over the whole session.
  lemma StepKeepsUnique(r: Registry, step: Step)
    requires UniqueIds(r)
    ensures UniqueIds(Next(r, step))
  {
    match step
    case BeginRequest(id, request, origin) => BeginKeepsUnique(r, id, request, origin);
    case CommitResponse(require, id, response, g) =>
      RespondShrinks(r, require, id, response, g);
      FewerIds(r, Next(r, step));
    case StageLeader(g) => StageShrinks(r, g); FewerIds(r, Next(r, step));
    case ReleaseLeader(g) => StageShrinks(r, g); ConcludeShrinks(StageDelivery(r, g), g); FewerIds(r, Next(r, step));
    case AbortLeader(g, cause) => AbortShrinks(r, g, cause); FewerIds(r, Next(r, step));
    case DropLeader(g) => AbortShrinks(r, g, PUBLICATION_FAILED); FewerIds(r, Next(r, step));
    case ClearRequest(id, g, cause) => ClearShrinks(r, id, g, cause); FewerIds(r, Next(r, step));
    case ClearRun(ids, cause) => ClearAllShrinks(r, ids, cause); FewerIds(r, Next(r, step));
    case _ => FewerIds(r, Next(r, step));
  }

  // ---- The log ----

  // For each identity the log reads Requested, Removed, Requested, ..., and in an agreeing
  // registry the last word is Requested exactly while the request is undecided.
  lemma LogAlternates(r: Registry, id: Identity)
    requires Consistent(r)
    ensures Alternates(r.stream.log, id)
    ensures r.enabled && Room(r.stream) && Agrees(r) ==> (Undecided(r, id) <==> Live(r.stream.log, id))
  {
    PendingIsLive(r.stream.first, r.stream.log, id);
    if r.enabled && Room(r.stream) && Agrees(r) { assert Pends(r, id) <==> Undecided(r, id); }
  }

  // begin counts only waiting requests against the limit of a run, but the snapshot also holds the
  // requests whose leader is at work, and those are what decides.
  lemma BeginAdmits(r: Registry, id: Identity, request: Request, origin: Origin)
    requires Consistent(r) && Agrees(r) && r.enabled && Room(r.stream)
    ensures Begin(r, id, request, origin).1.Ok? <==>
      && BeginRefusal(r, id, request).None? && id.Valid()
      && CountTurn(r.stream.snapshot.pending, id.turnId) < MAX_PENDING_PER_RUN
  {
    if BeginRefusal(r, id, request).None? && id.Valid() {
      assert Pends(r, id) <==> Undecided(r, id);
      AskAdmits(r.(nextGeneration := r.nextGeneration + 1), id, request, origin, r.nextGeneration);
    }
  }

  lemma AskAdmits(r: Registry, id: Identity, request: Request, origin: Origin, g: SeqNo)
    requires StreamOk(r.enabled, r.stream) && r.enabled && Room(r.stream) && Pending(id, request).Valid()
             && !Pends(r, id)
    ensures Ask(r, id, request, origin, g).1.Ok? <==>
              CountTurn(r.stream.snapshot.pending, id.turnId) < MAX_PENDING_PER_RUN
  {
    CommitMeaning(r.stream, Requested(Pending(id, request)));
  }

  // A run retired under a leader leaves its request in the snapshot for good: it can never
  // be asked again, and no later step can remove it.
  lemma RetiredUnderLeader(r: Registry, id: Identity, identity: nat, request: Request)
    requires Consistent(r) && Agrees(r) && r.enabled && Room(r.stream)
    requires Retirable(r, id.turnId, identity) && LeaderAtWork(r, id.turnId, id)
    ensures var next := Retire(r, id.turnId);
            && Pends(next, id) && id !in next.entries && !Agrees(next)
            && (id.Valid() && request.wellFormed ==> Publish(next, Requested(Pending(id, request))).None?)
  {
    assert Pends(r, id);
    var next := Retire(r, id.turnId);
    RetireKeeps(r, id.turnId);
    assert Pends(next, id) && !Undecided(next, id);
    if id.Valid() && request.wellFormed { CommitMeaning(next.stream, Requested(Pending(id, request))); }
  }

  // And it happens: ask, answer, and retire the run before the answer's leader is released.
  lemma RetireCanDisagree(first: Snapshot, id: Identity, request: Request, response: Json)
    requires first.Valid() && first.pending == [] && first.cursor.seqNo == 0
    requires Pending(id, request).Valid()
    ensures !Agrees(After(Start(true, first), [
              RegisterRun(id.turnId, 7), BeginRequest(id, request, Core),
              CommitResponse(true, id, response, 1), RetireRun(id.turnId, 7)]))
  {
    var a, b := RegisterRun(id.turnId, 7), BeginRequest(id, request, Core);
    var c, d := CommitResponse(true, id, response, 1), RetireRun(id.turnId, 7);
    var r0 := Start(true, first);
    var r1 := Next(r0, a);
    FourSteps(r0, a, b, c, d);
    StartConsistent(true, first);
    StepKeeps(r0, a);
    FirstRequest(r1, id, request);
    StepKeeps(r1, b);
    AnsweredAndRetired(Next(r1, b), id, request, response, 7);
  }

  lemma AnsweredAndRetired(r: Registry, id: Identity, request: Request, response: Json, identity: nat)
    requires Consistent(r) && Agrees(r) && r.enabled && Room(r.stream) && Pending(id, request).Valid()
    requires id.turnId in r.runs && r.runs[id.turnId] == identity
    requires r.entries == map[id := Waiting(request, 1, Core)] && 1 in r.tickets && r.tickets[1].open
    ensures !Agrees(Next(Next(r, CommitResponse(true, id, response, 1)), RetireRun(id.turnId, identity)))
  {
    var next := Next(r, CommitResponse(true, id, response, 1));
    RespondKeeps(r, true, id, response, 1);
    FirstAnswer(r, id, request, response);
    RetiredStep(next, id, identity, request);
  }

  lemma RetiredStep(r: Registry, id: Identity, identity: nat, request: Request)
    requires Consistent(r) && Agrees(r) && r.enabled && Room(r.stream)
    requires Retirable(r, id.turnId, identity) && LeaderAtWork(r, id.turnId, id)
    ensures !Agrees(Next(r, RetireRun(id.turnId, identity)))
  {
    RetiredUnderLeader(r, id, identity, request);
  }

  lemma FirstAnswer(r: Registry, id: Identity, request: Request, response: Json)
    requires r.enabled && r.entries == map[id := Waiting(request, 1, Core)] && 1 in r.tickets && r.tickets[1].open
    ensures var next := Respond(r, true, id, response, 1).0;
            && next.stream == r.stream && next.enabled && next.runs == r.runs
            && WaitingOf(next, id.turnId) == {} && LeaderAtWork(next, id.turnId, id)
  {
    var next := Respond(r, true, id, response, 1).0;
    assert next.entries.Keys == {id} && next.entries[id].Resolved?;
  }

  lemma FourSteps(r: Registry, a: Step, b: Step, c: Step, d: Step)
    ensures After(r, [a, b, c, d]) == Next(Next(Next(Next(r, a), b), c), d)
  {
    TwoSteps(r, [], a, b);
    TwoSteps(r, [a, b], c, d);
    assert [] + [a, b] == [a, b] && [a, b] + [c, d] == [a, b, c, d];
  }

  lemma TwoSteps(r: Registry, steps: seq<Step>, a: Step, b: Step)
    ensures After(r, steps + [a, b]) == Next(Next(After(r, steps), a), b)
  {
    AfterSnoc(r, steps, a);
    AfterSnoc(r, steps + [a], b);
    assert steps + [a] + [b] == steps + [a, b];
  }

  lemma AfterSnoc(r: Registry, steps: seq<Step>, step: Step)
    ensures After(r, steps + [step]) == Next(After(r, steps), step)
  {
    assert (steps + [step])[..|steps|] == steps;
  }

  lemma FirstRequest(r: Registry, id: Identity, request: Request)
    requires Consistent(r) && r.enabled && r.stream.log == [] && r.stream.snapshot.pending == []
    requires r.entries == map[] && r.nextGeneration == 1 && id.turnId in r.runs && Pending(id, request).Valid()
    ensures var next := Next(r, BeginRequest(id, request, Core));
            && next.enabled && Room(next.stream) && next.runs == r.runs
            && next.entries == map[id := Waiting(request, 1, Core)] && 1 in next.tickets && next.tickets[1].open
  {
    assert WaitingOf(r, id.turnId) == {};
    assert BeginRefusal(r, id, request).None?;
    FirstAsk(r.(nextGeneration := 2), id, request);
  }

  lemma FirstAsk(r: Registry, id: Identity, request: Request)
    requires StreamOk(true, r.stream) && r.enabled && r.stream.log == [] && r.stream.snapshot.pending == []
    requires r.entries == map[] && Pending(id, request).Valid()
    ensures var next := Ask(r, id, request, Core, 1).0;
            && next.enabled && Room(next.stream) && next.runs == r.runs
            && next.entries == map[id := Waiting(request, 1, Core)] && 1 in next.tickets && next.tickets[1].open
  {
    var payload := Requested(Pending(id, request));
    CommitMeaning(r.stream, payload);
    assert IdsOf(r.stream.snapshot.pending) == [];
    assert FitsIn(r.stream.snapshot.pending, payload);
    assert r.entries[id := Waiting(request, 1, Core)] == map[id := Waiting(request, 1, Core)];
  }
}
