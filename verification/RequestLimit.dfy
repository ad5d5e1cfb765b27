// The limit on a run's requests: begin counts those that wait, the snapshot also those whose
// leader is at work, and the difference can be seen from outside.
module RequestLimit {
  import opened Basics
  import opened CanonicalJson
  import opened Interactions
  import opened ResponseSteps
  import opened ResponseAgreement
  import opened ResponseOutcomes

  // n requests of one run have been asked for and all still wait.
  ghost predicate Crowd(r: Registry, turnId: string, ids: seq<Identity>, n: nat) {
    && Consistent(r) && Agrees(r) && r.enabled && |r.stream.log| == n && turnId in r.runs && r.nextGeneration == n + 1
    && Asked(r, ids, n)
    && CountTurn(r.stream.snapshot.pending, turnId) == n
  }

  ghost predicate Asked(r: Registry, ids: seq<Identity>, n: nat) {
    n <= |ids| && r.entries.Keys == ToSet(ids[..n]) && forall k | 0 <= k < n :: AsksFor(r, ids[k], k + 1)
  }

  predicate AsksFor(r: Registry, id: Identity, g: nat) {
    && id in r.entries && r.entries[id].Waiting? && r.entries[id].generation == g
    && g <= LAST_SEQ && g in r.tickets && r.tickets[g].open
  }

  // Different valid request ids of one run.
  predicate OneRun(ids: seq<Identity>, turnId: string) {
    Distinct(ids) && forall k | 0 <= k < |ids| :: ids[k].turnId == turnId && ids[k].Valid()
  }

  lemma {:induction false} DistinctSize<T>(s: seq<T>)
    requires Distinct(s)
    ensures |ToSet(s)| == |s|
  {
    if s != [] {
      var init, x := s[..|s| - 1], s[|s| - 1];
      assert s == init + [x];
      DistinctAppend(init, x);
      DistinctSize(init);
    }
  }

  lemma CrowdWaits(r: Registry, turnId: string, ids: seq<Identity>, n: nat)
    requires Crowd(r, turnId, ids, n) && OneRun(ids, turnId)
    ensures WaitingOf(r, turnId) == ToSet(ids[..n]) && |WaitingOf(r, turnId)| == n
  {
    forall id ensures id in WaitingOf(r, turnId) <==> id in ids[..n] {
      assert id in r.entries <==> id in ToSet(ids[..n]);
      if id in ids[..n] {
        var k :| 0 <= k < n && ids[..n][k] == id;
        assert AsksFor(r, ids[k], k + 1);
      }
    }
    assert WaitingOf(r, turnId) == ToSet(ids[..n]);
    assert Distinct(ids[..n]);
    DistinctSize(ids[..n]);
  }

  lemma CrowdAdmits(r: Registry, turnId: string, ids: seq<Identity>, n: nat, request: Request)
    requires Crowd(r, turnId, ids, n) && OneRun(ids, turnId) && n < |ids| && n < MAX_PENDING_PER_RUN
             && request.wellFormed
    ensures BeginRefusal(r, ids[n], request).None?
    ensures Begin(r, ids[n], request, Core).1.Ok?
  {
    CrowdWaits(r, turnId, ids, n);
    forall other | other in r.entries ensures other.requestId != ids[n].requestId {
      assert other in ToSet(ids[..n]);
      var k :| 0 <= k < n && ids[..n][k] == other;
      assert ids[k] != ids[n];
    }
    BeginAdmits(r, ids[n], request, Core);
  }

  // What an admitted request changes.
  lemma AdmittedRequest(r: Registry, id: Identity, request: Request)
    requires StreamOk(true, r.stream) && r.enabled && Room(r.stream) && Begin(r, id, request, Core).1.Ok?
    ensures var next := Begin(r, id, request, Core).0;
            && next == r.(stream := next.stream, nextGeneration := r.nextGeneration + 1,
                          entries := r.entries[id := Waiting(request, r.nextGeneration, Core)],
                          tickets := r.tickets[r.nextGeneration := Ticket(id, true, Empty)])
            && |next.stream.log| == |r.stream.log| + 1
            && CountTurn(next.stream.snapshot.pending, id.turnId) == CountTurn(r.stream.snapshot.pending, id.turnId) + 1
  {
    RequestedPending(r.stream, Pending(id, request));
    CountTurnAdd(r.stream.snapshot.pending, Pending(id, request), id.turnId);
  }

  lemma RequestedPending(s: Stream, p: Pending)
    requires StreamOk(true, s) && Commit(s, Requested(p)).Some?
    ensures Commit(s, Requested(p)).value.snapshot.pending == s.snapshot.pending + [p]
    ensures |Commit(s, Requested(p)).value.log| == |s.log| + 1
  {
  }

  lemma CrowdGrows(r: Registry, turnId: string, ids: seq<Identity>, n: nat, request: Request)
    requires Crowd(r, turnId, ids, n) && OneRun(ids, turnId) && n < |ids| && n < MAX_PENDING_PER_RUN
             && request.wellFormed
    ensures Crowd(Begin(r, ids[n], request, Core).0, turnId, ids, n + 1)
  {
    CrowdAdmits(r, turnId, ids, n, request);
    AdmittedRequest(r, ids[n], request);
    BeginKeeps(r, ids[n], request, Core);
    OneMoreAsked(r, Begin(r, ids[n], request, Core).0, ids, n, request);
  }

  lemma OneMoreAsked(r: Registry, next: Registry, ids: seq<Identity>, n: nat, request: Request)
    requires Asked(r, ids, n) && n < |ids| && n + 1 <= LAST_SEQ && Distinct(ids)
    requires next.entries == r.entries[ids[n] := Waiting(request, n + 1, Core)]
    requires next.tickets == r.tickets[n + 1 := Ticket(ids[n], true, Empty)]
    ensures Asked(next, ids, n + 1)
  {
    assert ids[..n + 1] == ids[..n] + [ids[n]];
    DistinctAppend(ids[..n], ids[n]);
    forall k | 0 <= k < n + 1 ensures AsksFor(next, ids[k], k + 1) {
      if k < n { assert AsksFor(r, ids[k], k + 1) && ids[k] != ids[n]; }
    }
  }

  function Asks(ids: seq<Identity>, n: nat, request: Request): seq<Step>
    requires n <= |ids|
  {
    if n == 0 then [] else Asks(ids, n - 1, request) + [BeginRequest(ids[n - 1], request, Core)]
  }

  lemma {:induction false} CrowdGathers(r: Registry, turnId: string, ids: seq<Identity>, n: nat, request: Request)
    requires Crowd(r, turnId, ids, 0) && OneRun(ids, turnId) && n <= |ids| && n <= MAX_PENDING_PER_RUN
             && request.wellFormed
    ensures Crowd(After(r, Asks(ids, n, request)), turnId, ids, n)
  {
    if n == 0 {
      assert Asks(ids, n, request) == [] && After(r, []) == r;
    } else {
      CrowdGathers(r, turnId, ids, n - 1, request);
      CrowdAsksOnce(r, turnId, ids, n - 1, request);
    }
  }

  lemma CrowdAsksOnce(r: Registry, turnId: string, ids: seq<Identity>, n: nat, request: Request)
    requires n < |ids| && n < MAX_PENDING_PER_RUN && OneRun(ids, turnId) && request.wellFormed
    requires Crowd(After(r, Asks(ids, n, request)), turnId, ids, n)
    ensures Crowd(After(r, Asks(ids, n + 1, request)), turnId, ids, n + 1)
  {
    AfterAsks(r, ids, n + 1, request);
    CrowdGrows(After(r, Asks(ids, n, request)), turnId, ids, n, request);
  }

  lemma AfterAsks(r: Registry, ids: seq<Identity>, n: nat, request: Request)
    requires 0 < n <= |ids|
    ensures After(r, Asks(ids, n, request)) == Begin(After(r, Asks(ids, n - 1, request)), ids[n - 1], request, Core).0
  {
    AfterSnoc(r, Asks(ids, n - 1, request), BeginRequest(ids[n - 1], request, Core));
  }

  // One of a full crowd is answered: 31 requests wait, and the next one passes every check of begin
  // that looks at the entries, but the snapshot still shows 32.
  lemma AnsweredCrowd(r: Registry, turnId: string, ids: seq<Identity>, request: Request, response: Json)
    requires Crowd(r, turnId, ids, MAX_PENDING_PER_RUN) && OneRun(ids, turnId) && |ids| == MAX_PENDING_PER_RUN + 1
             && request.wellFormed
    ensures var next := Next(r, CommitResponse(true, ids[0], response, 1));
            && |WaitingOf(next, turnId)| == MAX_PENDING_PER_RUN - 1
            && BeginRefusal(next, ids[MAX_PENDING_PER_RUN], request).None?
            && Begin(next, ids[MAX_PENDING_PER_RUN], request, Core).1 == Err(Unavailable)
  {
    var next, last := Next(r, CommitResponse(true, ids[0], response, 1)), ids[MAX_PENDING_PER_RUN];
    assert AsksFor(r, ids[0], 1);
    AnsweredEntries(r, ids[0], response);
    CrowdWaits(r, turnId, ids, MAX_PENDING_PER_RUN);
    AnsweredPasses(r, next, turnId, ids, request);
    BeginAdmits(next, last, request, Core);
    FullIsUnavailable(next, last, request);
  }

  lemma AnsweredPasses(r: Registry, next: Registry, turnId: string, ids: seq<Identity>, request: Request)
    requires OneRun(ids, turnId) && |ids| == MAX_PENDING_PER_RUN + 1 && request.wellFormed
    requires r.enabled && turnId in r.runs && r.nextGeneration < LAST_SEQ
             && r.entries.Keys == ToSet(ids[..MAX_PENDING_PER_RUN])
    requires WaitingOf(r, turnId) == ToSet(ids[..MAX_PENDING_PER_RUN]) && |WaitingOf(r, turnId)| == MAX_PENDING_PER_RUN
    requires next == r.(entries := next.entries, leaders := next.leaders)
    requires ids[0] in next.entries && next.entries == r.entries[ids[0] := next.entries[ids[0]]]
             && next.entries[ids[0]].Resolved?
    ensures |WaitingOf(next, turnId)| == MAX_PENDING_PER_RUN - 1
            && BeginRefusal(next, ids[MAX_PENDING_PER_RUN], request).None?
  {
    var n := MAX_PENDING_PER_RUN;
    assert WaitingOf(next, turnId) == WaitingOf(r, turnId) - {ids[0]};
    assert ids[0] in ids[..n] by { assert ids[..n][0] == ids[0]; }
    forall other | other in next.entries ensures other.requestId != ids[n].requestId {
      assert other in ToSet(ids[..n]);
      var k :| 0 <= k < n && ids[..n][k] == other;
      assert ids[k] != ids[n];
    }
  }

  lemma AnsweredEntries(r: Registry, id: Identity, response: Json)
    requires Consistent(r) && Agrees(r) && r.enabled && AsksFor(r, id, 1)
    ensures var next := Next(r, CommitResponse(true, id, response, 1));
            && Consistent(next) && Agrees(next)
            && next == r.(entries := next.entries, leaders := next.leaders)
            && id in next.entries && next.entries == r.entries[id := next.entries[id]] && next.entries[id].Resolved?
  {
    RespondKeeps(r, true, id, response, 1);
  }

  lemma FullIsUnavailable(r: Registry, id: Identity, request: Request)
    requires BeginRefusal(r, id, request).None? && id.Valid() && Begin(r, id, request, Core).1.Err?
    ensures Begin(r, id, request, Core).1 == Err(Unavailable)
  {
  }

  // It happens: ask 32 times, answer once, and ask again before the answer's leader is released.
  lemma RefusedBelowTheLimit(first: Snapshot, turnId: string, ids: seq<Identity>, n: nat, request: Request,
                             response: Json)
    requires first.Valid() && first.pending == [] && first.cursor.seqNo == 0
    requires OneRun(ids, turnId) && n == MAX_PENDING_PER_RUN && |ids| == n + 1 && request.wellFormed
    ensures var crowd := After(Next(Start(true, first), RegisterRun(turnId, 7)), Asks(ids, n, request));
            var r := Next(crowd, CommitResponse(true, ids[0], response, 1));
            && |WaitingOf(r, turnId)| < n
            && BeginRefusal(r, ids[n], request).None?
            && Begin(r, ids[n], request, Core).1 == Err(Unavailable)
  {
    var start := Next(Start(true, first), RegisterRun(turnId, 7));
    StartConsistent(true, first);
    StepKeeps(Start(true, first), RegisterRun(turnId, 7));
    assert ids[..0] == [] && ToSet<Identity>([]) == {};
    CrowdGathers(start, turnId, ids, n, request);
    AnsweredCrowd(After(start, Asks(ids, n, request)), turnId, ids, request, response);
  }

  // Any valid run id has that many request ids: a, aa, aaa, ..., and b.
  function ManyIds(turnId: string): (ids: seq<Identity>)
    ensures |ids| == MAX_PENDING_PER_RUN + 1
  {
    seq(MAX_PENDING_PER_RUN + 1, k requires 0 <= k =>
      Identity(turnId, if k < MAX_PENDING_PER_RUN then Repeated(k + 1) else "b"))
  }

  function Repeated(n: nat): (s: string)
    ensures |s| == n && forall k | 0 <= k < n :: s[k] == 'a'
  {
    if n == 0 then "" else Repeated(n - 1) + "a"
  }

  lemma ManyIdsAreOneRun(turnId: string)
    requires ValidIdentity(turnId)
    ensures OneRun(ManyIds(turnId), turnId)
  {
    var ids := ManyIds(turnId);
    forall k | 0 <= k < |ids| ensures ids[k].turnId == turnId && ids[k].Valid() {
      if k < MAX_PENDING_PER_RUN { ShortText(Repeated(k + 1), MAX_ID_BYTES); } else { ShortText("b", MAX_ID_BYTES); }
    }
    forall i, j | 0 <= i < j < |ids| ensures ids[i] != ids[j] {
      if j < MAX_PENDING_PER_RUN {
        assert |ids[i].requestId| == i + 1 && |ids[j].requestId| == j + 1;
      } else {
        assert ids[i].requestId[0] == 'a' && ids[j].requestId[0] == 'b';
      }
    }
  }
}
