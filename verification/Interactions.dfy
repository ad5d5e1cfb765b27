// The interaction wire contract: cursors, snapshots, event envelopes, and the
// checks a client makes on them.
module Interactions {
  import opened Basics
  import opened CanonicalJson

  const MAX_ID_BYTES: nat := 128
  const MAX_PENDING_PER_RUN: nat := 32
  const MAX_PAGE: nat := 256

  predicate ValidIdentity(s: string) {
    BoundedText(s, MAX_ID_BYTES)
  }

  datatype Cursor = Cursor(threadId: string, streamId: string, seqNo: SeqNo) {
    predicate Valid() {
      ValidIdentity(threadId) && ValidIdentity(streamId)
    }

    predicate SameStream(other: Cursor) {
      threadId == other.threadId && streamId == other.streamId
    }

    // checked_next
    function Next(): Result<Cursor, string> {
      if !Valid() then Err("cursor identity is invalid")
      else if seqNo >= LAST_SEQ then Err("Interaction cursor sequence is exhausted")
      else Ok(this.(seqNo := seqNo + 1))
    }
  }

  // What a request asks for. Its field and schema checks are one flag.
  datatype Request = Request(kind: string, body: Json, wellFormed: bool)

  datatype Identity = Identity(turnId: string, requestId: string) {
    predicate Valid() {
      ValidIdentity(requestId) && ValidIdentity(turnId)
    }
  }

  datatype Pending = Pending(id: Identity, request: Request) {
    predicate Valid() {
      id.Valid() && request.wellFormed
    }
  }

  datatype Payload =
    | Requested(interaction: Pending)
    | Removed(id: Identity, cause: string)
  {
    predicate Valid() {
      match this
      case Requested(interaction) => interaction.Valid()
      case Removed(id, cause) => id.Valid() && BoundedText(cause, MAX_ID_BYTES)
    }

    function Subject(): Identity {
      match this
      case Requested(interaction) => interaction.id
      case Removed(id, _) => id
    }
  }

  datatype Envelope = Envelope(threadId: string, cursor: Cursor, payload: Payload) {
    predicate Valid() {
      && ValidIdentity(threadId)
      && cursor.Valid()
      && cursor.threadId == threadId
      && cursor.seqNo != 0
      && payload.Valid()
    }
  }

  datatype Snapshot = Snapshot(threadId: string, cursor: Cursor, pending: seq<Pending>) {
    predicate Valid() {
      && ValidIdentity(threadId)
      && cursor.Valid()
      && cursor.threadId == threadId
      && ValidPendingSet(pending)
    }
  }

  // ---- The pending set ----

  function IdsOf(pending: seq<Pending>): (ids: seq<Identity>)
    ensures |ids| == |pending| && forall k | 0 <= k < |ids| :: ids[k] == pending[k].id
  {
    seq(|pending|, k requires 0 <= k < |pending| => pending[k].id)
  }

  // How many pending interactions belong to one run.
  function CountTurn(pending: seq<Pending>, turnId: string): nat {
    if pending == [] then 0
    else CountTurn(pending[..|pending| - 1], turnId) + (if pending[|pending| - 1].id.turnId == turnId then 1 else 0)
  }

  // The order of the checks does not matter: every entry well formed, no identity twice,
  // and no run with more than its limit.
  predicate ValidPendingSet(pending: seq<Pending>) {
    && (forall k | 0 <= k < |pending| :: pending[k].Valid())
    && Distinct(IdsOf(pending))
    && (forall k | 0 <= k < |pending| :: CountTurn(pending, pending[k].id.turnId) <= MAX_PENDING_PER_RUN)
  }

  lemma {:induction false} CountTurnAdd(pending: seq<Pending>, p: Pending, turnId: string)
    ensures CountTurn(pending + [p], turnId) == CountTurn(pending, turnId) + (if p.id.turnId == turnId then 1 else 0)
  {
    assert (pending + [p])[..|pending|] == pending;
  }

  lemma {:induction false} CountTurnConcat(a: seq<Pending>, b: seq<Pending>, turnId: string)
    ensures CountTurn(a + b, turnId) == CountTurn(a, turnId) + CountTurn(b, turnId)
    decreases |b|
  {
    if b == [] {
      assert a + b == a;
    } else {
      var init := b[..|b| - 1];
      assert a + b == (a + init) + [b[|b| - 1]];
      assert b == init + [b[|b| - 1]];
      CountTurnAdd(a + init, b[|b| - 1], turnId);
      CountTurnConcat(a, init, turnId);
    }
  }

  lemma IdsAdd(pending: seq<Pending>, p: Pending)
    ensures IdsOf(pending + [p]) == IdsOf(pending) + [p.id]
  {
  }

  // A valid set takes one more interaction exactly when it is valid, new, and its run has room.
  lemma ValidPendingAdd(pending: seq<Pending>, p: Pending)
    ensures ValidPendingSet(pending + [p]) <==>
            && ValidPendingSet(pending)
            && p.Valid()
            && p.id !in IdsOf(pending)
            && CountTurn(pending, p.id.turnId) < MAX_PENDING_PER_RUN
  {
    var more := pending + [p];
    IdsAdd(pending, p);
    DistinctAppend(IdsOf(pending), p.id);
    assert more[|pending|] == p;
    forall t ensures CountTurn(more, t) == CountTurn(pending, t) + (if p.id.turnId == t then 1 else 0) {
      CountTurnAdd(pending, p, t);
    }
    forall k | 0 <= k < |pending| ensures more[k] == pending[k] {}
    if ValidPendingSet(more) {
      forall k | 0 <= k < |pending|
        ensures pending[k].Valid() && CountTurn(pending, pending[k].id.turnId) <= MAX_PENDING_PER_RUN
      {
        assert more[k] == pending[k];
      }
    }
    forall k | 0 <= k < |more| && ValidPendingSet(pending) && CountTurn(pending, p.id.turnId) < MAX_PENDING_PER_RUN
      ensures CountTurn(more, more[k].id.turnId) <= MAX_PENDING_PER_RUN
    {
      if k < |pending| { assert more[k] == pending[k]; }
    }
  }

  // What the loop of validate_pending_set has recorded about the part it has read.
  ghost predicate Recorded(pending: seq<Pending>, identities: set<Identity>, perTurn: map<string, nat>) {
    && (forall id :: id in identities <==> id in IdsOf(pending))
    && (forall t :: Tally(perTurn, t) == CountTurn(pending, t))
  }

  function Tally(perTurn: map<string, nat>, turnId: string): nat {
    if turnId in perTurn then perTurn[turnId] else 0
  }

  lemma RecordedAdd(pending: seq<Pending>, p: Pending, identities: set<Identity>, perTurn: map<string, nat>)
    requires Recorded(pending, identities, perTurn)
    ensures Recorded(pending + [p], identities + {p.id}, perTurn[p.id.turnId := Tally(perTurn, p.id.turnId) + 1])
  {
    IdsAdd(pending, p);
    forall t ensures CountTurn(pending + [p], t) == CountTurn(pending, t) + (if p.id.turnId == t then 1 else 0) {
      CountTurnAdd(pending, p, t);
    }
  }

  // validate_pending_set, for a whole session or for one run's view of it.
  method ValidatePendingSet(pending: seq<Pending>, requiredTurn: Option<string>) returns (ok: bool)
    ensures ok <==>
            && ValidPendingSet(pending)
            && (requiredTurn.Some? ==> forall k | 0 <= k < |pending| :: pending[k].id.turnId == requiredTurn.value)
  {
    var identities: set<Identity>, perTurn: map<string, nat> := {}, map[];
    for k := 0 to |pending|
      invariant ValidPendingSet(pending[..k])
      invariant requiredTurn.Some? ==> forall j | 0 <= j < k :: pending[j].id.turnId == requiredTurn.value
      invariant Recorded(pending[..k], identities, perTurn)
    {
      var interaction := pending[k];
      assert pending[..k + 1] == pending[..k] + [interaction];
      assert pending == pending[..k + 1] + pending[k + 1..];
      ValidPendingAdd(pending[..k], interaction);
      ValidPrefix(pending[..k + 1], pending[k + 1..]);
      if !interaction.Valid()
        || (requiredTurn.Some? && interaction.id.turnId != requiredTurn.value)
        || interaction.id in identities
        || Tally(perTurn, interaction.id.turnId) + 1 > MAX_PENDING_PER_RUN
      {
        return false;
      }
      RecordedAdd(pending[..k], interaction, identities, perTurn);
      identities := identities + {interaction.id};
      perTurn := perTurn[interaction.id.turnId := Tally(perTurn, interaction.id.turnId) + 1];
    }
    assert pending[..|pending|] == pending;
    ok := true;
  }

  lemma {:induction false} ValidPrefix(a: seq<Pending>, b: seq<Pending>)
    ensures ValidPendingSet(a + b) ==> ValidPendingSet(a)
    decreases |b|
  {
    if b == [] {
      assert a + b == a;
    } else {
      assert a + b == (a + b[..|b| - 1]) + [b[|b| - 1]];
      ValidPendingAdd(a + b[..|b| - 1], b[|b| - 1]);
      ValidPrefix(a, b[..|b| - 1]);
    }
  }

  // ---- Applying events ----

  datatype ProjectionError =
    | InvalidState
    | StreamMismatch
    | SequenceGap(expected: Cursor, actual: Cursor)

  datatype Applied = Applied(next: Snapshot) | Stale | Failed(error: ProjectionError)

  lemma IdsOfRest(pending: seq<Pending>)
    requires pending != []
    ensures IdsOf(pending) == [pending[0].id] + IdsOf(pending[1..])
  {
  }

  function IndexOf(pending: seq<Pending>, id: Identity): (i: nat)
    ensures i <= |pending|
    ensures i < |pending| ==> pending[i].id == id
    ensures forall k | 0 <= k < i :: pending[k].id != id
    ensures i == |pending| <==> id !in IdsOf(pending)
  {
    if pending == [] then 0
    else
      IdsOfRest(pending);
      if pending[0].id == id then 0 else 1 + IndexOf(pending[1..], id)
  }

  // The pending list after one event, when the event fits it.
  function PendingAfter(pending: seq<Pending>, payload: Payload): Option<seq<Pending>> {
    match payload
    case Requested(interaction) =>
      if interaction.id in IdsOf(pending) then None else Some(pending + [interaction])
    case Removed(id, _) =>
      var i := IndexOf(pending, id);
      if i == |pending| then None else Some(pending[..i] + pending[i + 1..])
  }

  // InteractionSnapshot::apply. Only Applied replaces the snapshot.
  function Apply(s: Snapshot, e: Envelope): Applied {
    if !s.Valid() || !e.Valid() then Failed(InvalidState)
    else if e.threadId != s.threadId || e.cursor.streamId != s.cursor.streamId then Failed(StreamMismatch)
    else if e.cursor.seqNo <= s.cursor.seqNo then Stale
    else
      match s.cursor.Next()
      case Err(_) => Failed(InvalidState)
      case Ok(expected) =>
        if e.cursor != expected then Failed(SequenceGap(expected, e.cursor))
        else
          match PendingAfter(s.pending, e.payload)
          case None => Failed(InvalidState)
          case Some(pending) =>
            var next := Snapshot(s.threadId, e.cursor, pending);
            if next.Valid() then Applied(next) else Failed(InvalidState)
  }

  // Removing an interaction takes out its identity and nothing else.
  lemma RemoveAt(pending: seq<Pending>, i: nat)
    requires i < |pending| && ValidPendingSet(pending)
    ensures ValidPendingSet(pending[..i] + pending[i + 1..])
    ensures forall id :: id in IdsOf(pending[..i] + pending[i + 1..]) <==> id in IdsOf(pending) && id != pending[i].id
  {
    var less := pending[..i] + pending[i + 1..];
    WithoutIds(IdsOf(pending), i, IdsOf(less));
    forall k | 0 <= k < |less| ensures less[k].Valid() && CountTurn(less, less[k].id.turnId) <= MAX_PENDING_PER_RUN {
      assert less[k] == pending[if k < i then k else k + 1];
      CountWithout(pending, i, less[k].id.turnId);
    }
  }

  lemma CountWithout(pending: seq<Pending>, i: nat, t: string)
    requires i < |pending|
    ensures CountTurn(pending, t) == CountTurn(pending[..i] + pending[i + 1..], t)
            + (if pending[i].id.turnId == t then 1 else 0)
  {
    var a, b := pending[..i], pending[i + 1..];
    var c := a + [pending[i]];
    assert CountTurn(pending, t) == CountTurn(c, t) + CountTurn(b, t) by {
      assert pending == c + b;
      CountTurnConcat(c, b, t);
    }
    CountTurnAdd(a, pending[i], t);
    CountTurnConcat(a, b, t);
  }

  lemma WithoutIds(was: seq<Identity>, i: nat, ids: seq<Identity>)
    requires Distinct(was) && i < |was| && |ids| == |was| - 1
    requires forall k | 0 <= k < |ids| :: ids[k] == was[if k < i then k else k + 1]
    ensures Distinct(ids)
    ensures forall id :: id in ids <==> id in was && id != was[i]
  {
    forall id | id in ids ensures id in was && id != was[i] {
      var k :| 0 <= k < |ids| && ids[k] == id;
      var j := if k < i then k else k + 1;
      assert was[j] == id;
    }
    forall id | id in was && id != was[i] ensures id in ids {
      var j :| 0 <= j < |was| && was[j] == id;
      assert ids[if j < i then j else j - 1] == id;
    }
  }

  // Exactly when the next event of the stream goes in, and what it does to the identities.
  lemma ApplyMeaning(s: Snapshot, e: Envelope)
    requires s.Valid() && e.Valid() && s.cursor.Next() == Ok(e.cursor)
    ensures match e.payload
            case Requested(p) =>
              && (Apply(s, e).Applied? <==>
                    p.id !in IdsOf(s.pending) && CountTurn(s.pending, p.id.turnId) < MAX_PENDING_PER_RUN)
              && (Apply(s, e).Applied? ==> Apply(s, e).next == Snapshot(s.threadId, e.cursor, s.pending + [p]))
            case Removed(id, _) =>
              && (Apply(s, e).Applied? <==> id in IdsOf(s.pending))
              && (Apply(s, e).Applied? ==>
                    forall x :: x in IdsOf(Apply(s, e).next.pending) <==> x in IdsOf(s.pending) && x != id)
  {
    match e.payload
    case Requested(p) => ValidPendingAdd(s.pending, p);
    case Removed(id, _) =>
      var i := IndexOf(s.pending, id);
      if i < |s.pending| { RemoveAt(s.pending, i); }
  }
}
