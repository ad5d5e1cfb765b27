// The interaction registry as a state and its atomic steps: requests, the response
// transaction, cancellation and retirement. Channels are cells that are written once.
module ResponseSteps {
  import opened Basics
  import opened CanonicalJson
  import opened Interactions

  const TOOL_APPROVAL := "whale.tool_approval"
  const RESOLVED := "resolved"
  const ORIGIN_FINISHED := "origin_finished"
  const PUBLICATION_FAILED := "publication_failed"

  datatype Origin = Core | HostCall(call: string)

  // An unresolved request, or the fingerprint of the response that won. A keyed digest is
  // its canonical value.
  datatype Entry =
    | Waiting(request: Request, generation: SeqNo, origin: Origin)
    | Resolved(digest: Json, generation: SeqNo, typedApproval: bool)

  datatype Ack = AckPending | AckOk | AckFailed

  // What has reached the continuation that waits for a request's answer.
  datatype Mail = Empty | Cancelled | Delivery(response: Json, ack: Ack)

  datatype Ticket = Ticket(id: Identity, open: bool, mail: Mail)

  // The leader of a response: its continuation sender is unused, then its delivery waits for
  // a commit, then it has signalled its followers.
  datatype Stage = Held | Staged | Done(ok: bool)

  datatype Leader = Leader(id: Identity, digest: Json, response: Json, stage: Stage)

  datatype Stream = Stream(first: Snapshot, snapshot: Snapshot, log: seq<Envelope>)

  // `log`, `published` (the event each leader resolved its request with) and `resolvedBy`, its
  // inverse, are history.
  datatype Registry = Registry(
    enabled: bool,
    stream: Stream,
    entries: map<Identity, Entry>,
    runs: map<string, nat>,
    nextGeneration: SeqNo,
    tickets: map<SeqNo, Ticket>,
    leaders: map<SeqNo, Leader>,
    published: map<SeqNo, nat>,
    resolvedBy: map<nat, SeqNo>)

  function Start(enabled: bool, first: Snapshot): Registry {
    Registry(enabled, Stream(first, first, []), map[], map[], 1, map[], map[], map[], map[])
  }

  // ---- Publishing one event ----

  function Commit(s: Stream, payload: Payload): Option<Stream> {
    match s.snapshot.cursor.Next()
    case Err(_) => None
    case Ok(cursor) =>
      var e := Envelope(s.snapshot.threadId, cursor, payload);
      match Apply(s.snapshot, e)
      case Applied(next) => Some(Stream(s.first, next, s.log + [e]))
      case _ => None
  }

  // Nothing is published for a record with interactions disabled.
  function Publish(r: Registry, payload: Payload): (p: Option<Registry>)
    ensures p.Some? ==> p.value == r.(stream := p.value.stream)
  {
    if !r.enabled then Some(r)
    else
      match Commit(r.stream, payload)
      case None => None
      case Some(s) => Some(r.(stream := s))
  }

  // `let _ = record.commit(..)`
  function TryPublish(r: Registry, payload: Payload): (next: Registry)
    ensures next == r.(stream := next.stream)
  {
    match Publish(r, payload)
    case None => r
    case Some(next) => next
  }

  // ---- Steps ----

  function WaitingOf(r: Registry, turnId: string): set<Identity> {
    set id | id in r.entries && id.turnId == turnId && r.entries[id].Waiting?
  }

  datatype Refusal = InvalidRequest | Unavailable | NotFound

  function BeginRefusal(r: Registry, id: Identity, request: Request): Option<Refusal> {
    if !request.wellFormed then Some(InvalidRequest)
    else if !r.enabled && request.kind != TOOL_APPROVAL then Some(Unavailable)
    else if id.turnId !in r.runs then Some(Unavailable)
    else if exists other :: other in r.entries && other.requestId == id.requestId then Some(Unavailable)
    else if |WaitingOf(r, id.turnId)| >= MAX_PENDING_PER_RUN then Some(Unavailable)
    else if r.nextGeneration >= LAST_SEQ then Some(Unavailable)
    else None
  }

  // The part of begin after the generation is taken.
  function Ask(r: Registry, id: Identity, request: Request, origin: Origin,
               g: SeqNo): (Registry, Result<SeqNo, Refusal>) {
    match Publish(r, Requested(Pending(id, request)))
    case None => (r, Err(Unavailable))
    case Some(next) =>
      (next.(entries := next.entries[id := Waiting(request, g, origin)],
             tickets := next.tickets[g := Ticket(id, true, Empty)]), Ok(g))
  }

  // begin
  function Begin(r: Registry, id: Identity, request: Request, origin: Origin): (Registry, Result<SeqNo, Refusal>) {
    match BeginRefusal(r, id, request)
    case Some(refusal) => (r, Err(refusal))
    case None =>
      var bumped := r.(nextGeneration := r.nextGeneration + 1);
      if !Pending(id, request).Valid() then (bumped, Err(InvalidRequest))
      else Ask(bumped, id, request, origin, r.nextGeneration)
  }

  datatype Look = Candidate(request: Request, generation: SeqNo) | Follow(generation: SeqNo) | Conflict
    | Refused(refusal: Refusal)

  // What commit_response finds each time it takes the lock.
  function LookUp(r: Registry, requireEnabled: bool, id: Identity, response: Json): Look {
    if requireEnabled && !r.enabled then Refused(Unavailable)
    else if id !in r.entries then Refused(NotFound)
    else
      match r.entries[id]
      case Waiting(request, g, _) => Candidate(request, g)
      case Resolved(digest, g, _) => if digest == Canonical(response) then Follow(g) else Conflict
  }

  datatype Won = Leads(generation: SeqNo) | Follows(generation: SeqNo) | Loses | Rejected(refusal: Refusal)

  // A response to a request that still waits leads it, unless nobody waits for the answer.
  function Resolve(r: Registry, id: Identity, response: Json, request: Request, g: SeqNo): (Registry, Won) {
    if g !in r.tickets || !r.tickets[g].open then
      var gone := r.(entries := r.entries - {id});
      (TryPublish(gone, Removed(id, ORIGIN_FINISHED)),
       Rejected(if Publish(gone, Removed(id, ORIGIN_FINISHED)).None? then Unavailable else NotFound))
    else
      var digest := Canonical(response);
      (r.(entries := r.entries[id := Resolved(digest, g, request.kind == TOOL_APPROVAL)],
          leaders := r.leaders[g := Leader(id, digest, response, Held)]), Leads(g))
  }

  // The second locked section: the first response to a request becomes its leader.
  function Respond(r: Registry, requireEnabled: bool, id: Identity, response: Json, g: SeqNo): (Registry, Won) {
    match LookUp(r, requireEnabled, id, response)
    case Refused(refusal) => (r, Rejected(refusal))
    case Conflict => (r, Loses)
    case Follow(h) => (r, Follows(h))
    case Candidate(request, h) => if h != g then (r, Rejected(NotFound)) else Resolve(r, id, response, request, g)
  }

  // Whether the entry a leader resolved is still its own.
  predicate Owns(r: Registry, g: SeqNo)
    requires g in r.leaders
  {
    var leader := r.leaders[g];
    && leader.id in r.entries
    && r.entries[leader.id].Resolved?
    && r.entries[leader.id].generation == g
    && r.entries[leader.id].digest == leader.digest
  }

  // pending.retain(..): the fallback of abort_resolved_exact when no event can be committed
  function Forget(pending: seq<Pending>, id: Identity): seq<Pending> {
    if pending == [] then []
    else (if pending[0].id != id then [pending[0]] else []) + Forget(pending[1..], id)
  }

  // abort_resolved_exact
  function AbortResolved(r: Registry, g: SeqNo, cause: string): Registry
    requires g in r.leaders
  {
    if !Owns(r, g) then r
    else
      var id := r.leaders[g].id;
      var removed :=
        match Publish(r, Removed(id, cause))
        case Some(next) => next
        case None =>
          var pending := Forget(r.stream.snapshot.pending, id);
          r.(stream := r.stream.(snapshot := r.stream.snapshot.(pending := pending)));
      removed.(entries := removed.entries - {id})
  }

  function Settle(r: Registry, g: SeqNo, ok: bool): Registry
    requires g in r.leaders && g in r.tickets
  {
    var leader, ticket := r.leaders[g], r.tickets[g];
    var mail :=
      match leader.stage
      case Held => if ticket.open then Cancelled else ticket.mail
      case Staged => Delivery(leader.response, if ok then AckOk else AckFailed)
      case Done(_) => ticket.mail;
    r.(leaders := r.leaders[g := leader.(stage := Done(ok))], tickets := r.tickets[g := ticket.(mail := mail)])
  }

  predicate Running(r: Registry, g: SeqNo) {
    g in r.leaders && g in r.tickets && !r.leaders[g].stage.Done?
  }

  // abort, and drop with the cause publication_failed
  function Abort(r: Registry, g: SeqNo, cause: string): Registry {
    if !Running(r, g) then r else Settle(AbortResolved(r, g, cause), g, false)
  }

  // stage_delivery
  function StageDelivery(r: Registry, g: SeqNo): Registry {
    if !Running(r, g) || r.leaders[g].stage != Held then r
    else if !r.tickets[g].open then Abort(r, g, ORIGIN_FINISHED)
    else
      var leader, ticket := r.leaders[g], r.tickets[g];
      r.(leaders := r.leaders[g := leader.(stage := Staged)],
         tickets := r.tickets[g := ticket.(mail := Delivery(leader.response, AckPending))])
  }

  // History: the newest event is this leader's resolution.
  function Attribute(r: Registry, g: SeqNo): Registry {
    var n := |r.stream.log|;
    if r.enabled then r.(published := r.published[g := n], resolvedBy := r.resolvedBy[n := g]) else r
  }

  // publish_resolved_exact, for a leader that still owns its entry
  function PublishOwned(r: Registry, g: SeqNo): Option<Registry>
    requires g in r.leaders
  {
    match Publish(r, Removed(r.leaders[g].id, RESOLVED))
    case None => None
    case Some(next) => Some(Attribute(next, g))
  }

  function PublishResolved(r: Registry, g: SeqNo): Option<Registry>
    requires g in r.leaders
  {
    if Owns(r, g) then PublishOwned(r, g) else None
  }

  // The part of release after the delivery is staged.
  function Conclude(r: Registry, g: SeqNo): Registry {
    if !Running(r, g) then r
    else if !r.tickets[g].open then Abort(r, g, ORIGIN_FINISHED)
    else
      match PublishResolved(r, g)
      case None => Abort(r, g, PUBLICATION_FAILED)
      case Some(next) => Settle(next, g, true)
  }

  // release
  function Release(r: Registry, g: SeqNo): Registry {
    Conclude(StageDelivery(r, g), g)
  }

  // clear_exact
  function ClearExact(r: Registry, id: Identity, g: SeqNo, cause: string): Registry {
    if id !in r.entries || !r.entries[id].Waiting? || r.entries[id].generation != g then r
    else
      var next := TryPublish(r.(entries := r.entries - {id}), Removed(id, cause));
      if g in next.tickets && next.tickets[g].open then
        next.(tickets := next.tickets[g := next.tickets[g].(mail := Cancelled)])
      else next
  }

  // clear_run, in the order the entry table gives
  function ClearAll(r: Registry, ids: seq<Identity>, cause: string): Registry
    decreases |ids|
  {
    if ids == [] then r
    else
      var id := ids[0];
      var next := if id in r.entries then ClearExact(r, id, r.entries[id].generation, cause) else r;
      ClearAll(next, ids[1..], cause)
  }

  // The part of retire_run that changes the record.
  function Retire(r: Registry, turnId: string): Registry {
    r.(entries := map id | id in r.entries && id.turnId != turnId :: r.entries[id], runs := r.runs - {turnId})
  }

  predicate Retirable(r: Registry, turnId: string, identity: nat) {
    turnId in r.runs && r.runs[turnId] == identity && WaitingOf(r, turnId) == {}
  }

  function CloseTicket(r: Registry, g: SeqNo): Registry {
    if g in r.tickets then r.(tickets := r.tickets[g := r.tickets[g].(open := false)]) else r
  }

  datatype Step =
    | RegisterRun(turnId: string, identity: nat)
    | UnregisterRun(turnId: string, identity: nat)
    | BeginRequest(id: Identity, request: Request, origin: Origin)
    | CommitResponse(requireEnabled: bool, id: Identity, response: Json, generation: SeqNo)
    | StageLeader(generation: SeqNo)
    | ReleaseLeader(generation: SeqNo)
    | AbortLeader(generation: SeqNo, cause: string)
    | DropLeader(generation: SeqNo)
    | ClearRequest(id: Identity, generation: SeqNo, cause: string)
    | ClearRun(ids: seq<Identity>, cause: string)
    | RetireRun(turnId: string, identity: nat)
    | DropTicket(generation: SeqNo)

  function Next(r: Registry, step: Step): Registry {
    match step
    case RegisterRun(t, identity) => if t in r.runs then r else r.(runs := r.runs[t := identity])
    case UnregisterRun(t, identity) => if t in r.runs && r.runs[t] == identity then r.(runs := r.runs - {t}) else r
    case BeginRequest(id, request, origin) => Begin(r, id, request, origin).0
    case CommitResponse(require, id, response, g) => Respond(r, require, id, response, g).0
    case StageLeader(g) => StageDelivery(r, g)
    case ReleaseLeader(g) => Release(r, g)
    case AbortLeader(g, cause) => Abort(r, g, cause)
    case DropLeader(g) => Abort(r, g, PUBLICATION_FAILED)
    case ClearRequest(id, g, cause) => ClearExact(r, id, g, cause)
    case ClearRun(ids, cause) => ClearAll(r, ids, cause)
    case RetireRun(t, identity) => if Retirable(r, t, identity) then Retire(r, t) else r
    case DropTicket(g) => CloseTicket(r, g)
  }

  // Only release removes a request as resolved; every other caller gives another cause.
  predicate OtherCause(cause: string) {
    BoundedText(cause, MAX_ID_BYTES) && cause != RESOLVED
  }

  predicate Allowed(step: Step) {
    match step
    case AbortLeader(_, cause) => OtherCause(cause)
    case ClearRequest(_, _, cause) => OtherCause(cause)
    case ClearRun(_, cause) => OtherCause(cause)
    case _ => true
  }
}
