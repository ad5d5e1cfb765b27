// What holds over whole runs of the interaction registry: the log only grows, outcomes and
// winning responses last, request ids stay unique, and a client can page while the record
// goes on.
module RegistryRuns {
  import opened Basics
  import opened CanonicalJson
  import opened Interactions
  import opened Convergence
  import opened Journal
  import opened Replay
  import opened ResponseSteps
  import opened ResponseAgreement
  import opened ResponseOutcomes
  import opened InteractionRecords

  // ---- The log only grows ----

  ghost predicate Grows(a: Registry, b: Registry) {
    a.enabled == b.enabled && a.stream.first == b.stream.first && a.stream.log <= b.stream.log
  }

  lemma PublishGrows(r: Registry, payload: Payload)
    ensures Grows(r, TryPublish(r, payload))
    ensures Publish(r, payload).Some? ==> Publish(r, payload).value == TryPublish(r, payload)
  {
  }

  lemma AbortGrows(r: Registry, g: SeqNo, cause: string)
    ensures Grows(r, Abort(r, g, cause))
  {
    if Running(r, g) { AbortResolvedGrows(r, g, cause); }
  }

  lemma AbortResolvedGrows(r: Registry, g: SeqNo, cause: string)
    requires g in r.leaders
    ensures Grows(r, AbortResolved(r, g, cause)) && g in AbortResolved(r, g, cause).leaders
  {
    if Owns(r, g) { PublishGrows(r, Removed(r.leaders[g].id, cause)); }
  }

  lemma StageGrows(r: Registry, g: SeqNo)
    ensures Grows(r, StageDelivery(r, g))
  {
    AbortGrows(r, g, ORIGIN_FINISHED);
  }

  lemma ConcludeGrows(r: Registry, g: SeqNo)
    ensures Grows(r, Conclude(r, g))
  {
    AbortGrows(r, g, ORIGIN_FINISHED);
    AbortGrows(r, g, PUBLICATION_FAILED);
    if Running(r, g) { PublishGrows(r, Removed(r.leaders[g].id, RESOLVED)); }
  }

  lemma AskGrows(r: Registry, id: Identity, request: Request, origin: Origin, g: SeqNo)
    ensures Grows(r, Ask(r, id, request, origin, g).0)
  {
    PublishGrows(r, Requested(Pending(id, request)));
  }

  lemma BeginGrows(r: Registry, id: Identity, request: Request, origin: Origin)
    ensures Grows(r, Begin(r, id, request, origin).0)
  {
    if BeginRefusal(r, id, request).None? {
      AskGrows(r.(nextGeneration := r.nextGeneration + 1), id, request, origin, r.nextGeneration);
    }
  }

  lemma ResolveGrows(r: Registry, id: Identity, response: Json, request: Request, g: SeqNo)
    ensures Grows(r, Resolve(r, id, response, request, g).0)
  {
    PublishGrows(r.(entries := r.entries - {id}), Removed(id, ORIGIN_FINISHED));
  }

  lemma RespondGrows(r: Registry, requireEnabled: bool, id: Identity, response: Json, g: SeqNo)
    ensures Grows(r, Respond(r, requireEnabled, id, response, g).0)
  {
    var look := LookUp(r, requireEnabled, id, response);
    if look.Candidate? && look.generation == g { ResolveGrows(r, id, response, look.request, g); }
  }

  lemma ClearGrows(r: Registry, id: Identity, g: SeqNo, cause: string)
    ensures Grows(r, ClearExact(r, id, g, cause))
  {
    PublishGrows(r.(entries := r.entries - {id}), Removed(id, cause));
  }

  lemma {:induction false} ClearAllGrows(r: Registry, ids: seq<Identity>, cause: string)
    ensures Grows(r, ClearAll(r, ids, cause))
    decreases |ids|
  {
    if ids != [] {
      var id := ids[0];
      if id in r.entries {
        ClearGrows(r, id, r.entries[id].generation, cause);
        ClearAllGrows(ClearExact(r, id, r.entries[id].generation, cause), ids[1..], cause);
      } else {
        ClearAllGrows(r, ids[1..], cause);
      }
    }
  }

  lemma StepGrows(r: Registry, step: Step)
    ensures Grows(r, Next(r, step))
  {
    match step
    case BeginRequest(id, request, origin) => BeginGrows(r, id, request, origin);
    case CommitResponse(require, id, response, g) => RespondGrows(r, require, id, response, g);
    case StageLeader(g) => StageGrows(r, g);
    case ReleaseLeader(g) => StageGrows(r, g); ConcludeGrows(StageDelivery(r, g), g);
    case AbortLeader(g, cause) => AbortGrows(r, g, cause);
    case DropLeader(g) => AbortGrows(r, g, PUBLICATION_FAILED);
    case ClearRequest(id, g, cause) => ClearGrows(r, id, g, cause);
    case ClearRun(ids, cause) => ClearAllGrows(r, ids, cause);
    case _ =>
  }

  lemma {:induction false} RunGrows(r: Registry, steps: seq<Step>)
    ensures Grows(r, After(r, steps))
  {
    if steps != [] {
      RunGrows(r, steps[..|steps| - 1]);
      StepGrows(After(r, steps[..|steps| - 1]), steps[|steps| - 1]);
    }
  }

  lemma {:induction false} RunConsistent(r: Registry, steps: seq<Step>)
    requires Consistent(r) && forall step | step in steps :: Allowed(step)
    ensures Consistent(After(r, steps))
  {
    if steps != [] {
      RunConsistent(r, steps[..|steps| - 1]);
      StepKeeps(After(r, steps[..|steps| - 1]), steps[|steps| - 1]);
    }
  }

  // ---- Outcomes, winners and request ids over runs ----

  // An outcome that has been signalled never changes, however the run goes on.
  lemma {:induction false} OutcomeNeverChanges(r: Registry, steps: seq<Step>, g: SeqNo)
    requires Consistent(r) && Outcome(r, g).Some? && forall step | step in steps :: Allowed(step)
    ensures Outcome(After(r, steps), g) == Outcome(r, g)
  {
    if steps != [] {
      var init := steps[..|steps| - 1];
      OutcomeNeverChanges(r, init, g);
      RunConsistent(r, init);
      OutcomeIsFinal(After(r, init), steps[|steps| - 1], g);
    }
  }

  // The entry of a winning response lasts as long as its run is not retired and its leader does not
  // fail; so does the answer to every further response.
  lemma {:induction false} WinnerLasts(r: Registry, steps: seq<Step>, id: Identity)
    requires Consistent(r) && forall step | step in steps :: Allowed(step)
    requires forall step | step in steps && step.RetireRun? :: step.turnId != id.turnId
    ensures Kept(r, After(r, steps), id)
  {
    if steps != [] {
      var init, last := steps[..|steps| - 1], steps[|steps| - 1];
      var now := After(r, init);
      WinnerLasts(r, init, id);
      RunConsistent(r, init);
      WinnerStays(now, last, id);
      if id in r.entries && Outcome(now, r.entries[id].generation).Some? {
        OutcomeIsFinal(now, last, r.entries[id].generation);
      }
      KeptThrough(r, now, Next(now, last), id);
    }
  }

  // In every reachable registry a request id names at most one request.
  lemma {:induction false} IdsStayUnique(enabled: bool, first: Snapshot, steps: seq<Step>)
    ensures UniqueIds(After(Start(enabled, first), steps))
  {
    if steps != [] {
      IdsStayUnique(enabled, first, steps[..|steps| - 1]);
      StepKeepsUnique(After(Start(enabled, first), steps[..|steps| - 1]), steps[|steps| - 1]);
    }
  }

  // ---- A client that pages while the record goes on ----

  // The registry after some rounds of steps; round i runs before page i is asked for.
  function AfterRounds(start: Registry, rounds: nat -> seq<Step>, i: nat): Registry {
    After(if i == 0 then start else AfterRounds(start, rounds, i - 1), rounds(i))
  }

  lemma {:induction false} RoundsConsistent(start: Registry, rounds: nat -> seq<Step>, i: nat)
    requires Consistent(start) && forall j: nat, step | step in rounds(j) :: Allowed(step)
    ensures Consistent(AfterRounds(start, rounds, i)) && Grows(start, AfterRounds(start, rounds, i))
  {
    if i > 0 { RoundsConsistent(start, rounds, i - 1); }
    var before := if i == 0 then start else AfterRounds(start, rounds, i - 1);
    RunConsistent(before, rounds(i));
    RunGrows(before, rounds(i));
  }

  // What the client meets: the record after each round, with whatever barrier its scrubs have reached.
  function MomentAt(start: Registry, rounds: nat -> seq<Step>, barriers: nat -> nat, limits: Limits,
                    sizeOf: Envelope -> nat, i: nat): Moment {
    MomentOf(AfterRounds(start, rounds, i).stream, barriers(i), limits, sizeOf)
  }

  function Moments(start: Registry, rounds: nat -> seq<Step>, barriers: nat -> nat, limits: Limits,
                   sizeOf: Envelope -> nat): nat -> Moment {
    (i: nat) => MomentAt(start, rounds, barriers, limits, sizeOf, i)
  }

  lemma MomentValid(start: Registry, rounds: nat -> seq<Step>, barriers: nat -> nat, limits: Limits,
                    sizeOf: Envelope -> nat, i: nat)
    requires Consistent(start) && start.enabled && forall j: nat, step | step in rounds(j) :: Allowed(step)
    ensures MomentAt(start, rounds, barriers, limits, sizeOf, i).Valid(start.stream.first.cursor)
  {
    RoundsConsistent(start, rounds, i);
    StreamIsMoment(AfterRounds(start, rounds, i).stream, barriers(i), limits, sizeOf);
  }

  lemma MomentGrows(start: Registry, rounds: nat -> seq<Step>, barriers: nat -> nat, limits: Limits,
                    sizeOf: Envelope -> nat, i: nat)
    ensures MomentAt(start, rounds, barriers, limits, sizeOf, i).log <=
            MomentAt(start, rounds, barriers, limits, sizeOf, i + 1).log
  {
    RunGrows(AfterRounds(start, rounds, i), rounds(i + 1));
  }

  lemma RoundsEvolve(start: Registry, rounds: nat -> seq<Step>, barriers: nat -> nat, limits: Limits,
                     sizeOf: Envelope -> nat)
    requires Consistent(start) && start.enabled && forall j: nat, step | step in rounds(j) :: Allowed(step)
    ensures Evolving(Moments(start, rounds, barriers, limits, sizeOf), start.stream.first.cursor)
  {
    forall i: nat ensures Moments(start, rounds, barriers, limits, sizeOf)(i).Valid(start.stream.first.cursor) {
      MomentValid(start, rounds, barriers, limits, sizeOf, i);
    }
    forall i: nat ensures GrowsAt(Moments(start, rounds, barriers, limits, sizeOf), i) {
      MomentGrows(start, rounds, barriers, limits, sizeOf, i);
    }
  }

  // So a client of a reachable record that pages through a fixed window, with any steps of the registry
  // between its pages, gets exactly the window's events, or the gap of a page whose cursor was lost.
  lemma PagingDelivers(start: Registry, rounds: nat -> seq<Step>, barriers: nat -> nat, limits: Limits,
                       sizeOf: Envelope -> nat, i: nat, params: Params)
    requires Consistent(start) && start.enabled && forall j: nat, step | step in rounds(j) :: Allowed(step)
    requires params.Valid() && params.through.Some? && params.after.SameStream(start.stream.first.cursor)
    requires params.through.value.seqNo <= |Moments(start, rounds, barriers, limits, sizeOf)(i).log|
    ensures WalksWell(Moments(start, rounds, barriers, limits, sizeOf), i, params)
  {
    RoundsEvolve(start, rounds, barriers, limits, sizeOf);
    WalkDelivers(Moments(start, rounds, barriers, limits, sizeOf), start.stream.first.cursor, i, params);
  }

  lemma {:induction false} RoundsGrow(start: Registry, rounds: nat -> seq<Step>, j: nat, i: nat)
    requires j <= i
    ensures Grows(AfterRounds(start, rounds, j), AfterRounds(start, rounds, i))
  {
    if j < i {
      RoundsGrow(start, rounds, j, i - 1);
      RunGrows(AfterRounds(start, rounds, i - 1), rounds(i));
    }
  }

  // A snapshot holds what the stream says, while cursor space is left.
  lemma SnapshotAt(start: Registry, rounds: nat -> seq<Step>, j: nat, i: nat)
    requires j <= i && Consistent(start) && forall k: nat, step | step in rounds(k) :: Allowed(step)
    requires Room(AfterRounds(start, rounds, i).stream)
    ensures var was, now := AfterRounds(start, rounds, j).stream, AfterRounds(start, rounds, i).stream;
            && was.first == now.first && |was.log| <= |now.log| && Genuine(now.first, now.log)
            && was.snapshot.cursor == now.first.cursor.(seqNo := |was.log|)
            && StateAt(now.first, now.log[..|was.log|]) == Some(was.snapshot)
  {
    RoundsConsistent(start, rounds, j);
    RoundsConsistent(start, rounds, i);
    RoundsGrow(start, rounds, j, i);
    var was, now := AfterRounds(start, rounds, j).stream, AfterRounds(start, rounds, i).stream;
    assert now.log[..|was.log|] == was.log;
  }

  // A client that took the record's snapshot after round j and asks, from round i on, for everything
  // up to the snapshot of round m has that snapshot once the pages are delivered.
  lemma SnapshotAndPages(start: Registry, rounds: nat -> seq<Step>, barriers: nat -> nat, limits: Limits,
                         sizeOf: Envelope -> nat, j: nat, m: nat, i: nat, params: Params)
    requires j <= m <= i && Consistent(start) && start.enabled
             && forall k: nat, step | step in rounds(k) :: Allowed(step)
    requires Room(AfterRounds(start, rounds, i).stream) && params.Valid()
    requires params.after == AfterRounds(start, rounds, j).stream.snapshot.cursor
    requires params.through == Some(AfterRounds(start, rounds, m).stream.snapshot.cursor)
    ensures var moments := Moments(start, rounds, barriers, limits, sizeOf);
            params.through.value.seqNo <= |moments(i).log| && WalksWell(moments, i, params)
    ensures var walked := Walk(Moments(start, rounds, barriers, limits, sizeOf), i, params).value;
            walked.Delivered? ==>
              Feed(AfterRounds(start, rounds, j).stream.snapshot, walked.events) ==
                AfterRounds(start, rounds, m).stream.snapshot
  {
    SnapshotAt(start, rounds, j, i);
    SnapshotAt(start, rounds, m, i);
    RoundsConsistent(start, rounds, i);
    PagingDelivers(start, rounds, barriers, limits, sizeOf, i, params);
    var now := AfterRounds(start, rounds, i).stream;
    CatchUp(now.first, now.log, params.after.seqNo, params.through.value.seqNo);
  }
}
