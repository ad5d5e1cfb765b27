// One event stream and the snapshots folded from it: what a client can learn, whatever
// order, repetition or loss its deliveries suffer.
module Convergence {
  import opened Basics
  import opened Interactions

  // The snapshot after a whole log, if every event of the log goes in.
  function StateAt(first: Snapshot, log: seq<Envelope>): Option<Snapshot> {
    if log == [] then Some(first)
    else
      match StateAt(first, log[..|log| - 1])
      case None => None
      case Some(s) =>
        match Apply(s, log[|log| - 1])
        case Applied(next) => Some(next)
        case _ => None
  }

  // A stream that a record has published: it starts empty at sequence 0.
  ghost predicate Genuine(first: Snapshot, log: seq<Envelope>) {
    && first.Valid() && first.pending == [] && first.cursor.seqNo == 0
    && StateAt(first, log).Some?
  }

  lemma {:induction false} StateFacts(first: Snapshot, log: seq<Envelope>)
    requires Genuine(first, log)
    ensures |log| <= LAST_SEQ
    ensures var s := StateAt(first, log).value;
            s.Valid() && s.threadId == first.threadId && s.cursor == first.cursor.(seqNo := |log|)
  {
    if log != [] { StateFacts(first, log[..|log| - 1]); }
  }

  lemma {:induction false} PrefixGenuine(first: Snapshot, log: seq<Envelope>, k: nat)
    requires Genuine(first, log) && k <= |log|
    ensures Genuine(first, log[..k])
  {
    if k < |log| {
      assert log[..|log| - 1][..k] == log[..k];
      PrefixGenuine(first, log[..|log| - 1], k);
    } else {
      assert log[..k] == log;
    }
  }

  lemma LastGoesIn(first: Snapshot, log: seq<Envelope>)
    requires Genuine(first, log) && log != []
    ensures Genuine(first, log[..|log| - 1]) && |log| <= LAST_SEQ
    ensures var e := log[|log| - 1];
            && Apply(StateAt(first, log[..|log| - 1]).value, e) == Applied(StateAt(first, log).value)
            && e.Valid() && e.threadId == first.threadId && e.cursor == first.cursor.(seqNo := |log|)
  {
    PrefixGenuine(first, log, |log| - 1);
    StateFacts(first, log);
    StateFacts(first, log[..|log| - 1]);
  }

  lemma EventAt(first: Snapshot, log: seq<Envelope>, j: nat)
    requires Genuine(first, log) && j < |log|
    ensures |log| <= LAST_SEQ
    ensures log[j].Valid() && log[j].threadId == first.threadId && log[j].cursor == first.cursor.(seqNo := j + 1)
  {
    StateFacts(first, log);
    PrefixGenuine(first, log, j + 1);
    LastGoesIn(first, log[..j + 1]);
  }

  // A client that holds the stream's state after k events meets any event of the stream:
  // an old one changes nothing, the next one advances it, and a later one is a gap.
  lemma ApplyKnown(first: Snapshot, log: seq<Envelope>, k: nat, j: nat)
    requires Genuine(first, log) && k <= |log| && j < |log|
    ensures Genuine(first, log[..k]) && (k < |log| ==> Genuine(first, log[..k + 1]))
    ensures var s := StateAt(first, log[..k]).value;
            if j < k then Apply(s, log[j]) == Stale
            else if j == k then Apply(s, log[j]) == Applied(StateAt(first, log[..k + 1]).value)
            else Apply(s, log[j]).Failed? && Apply(s, log[j]).error.SequenceGap?
  {
    PrefixGenuine(first, log, k);
    if k < |log| { PrefixGenuine(first, log, k + 1); }
    StateFacts(first, log[..k]);
    EventAt(first, log, j);
    if j == k {
      assert log[..k + 1][..k] == log[..k];
      LastGoesIn(first, log[..k + 1]);
    }
  }

  // ---- Clients ----

  function Deliver(client: Snapshot, e: Envelope): Snapshot {
    match Apply(client, e)
    case Applied(next) => next
    case _ => client
  }

  function Feed(client: Snapshot, deliveries: seq<Envelope>): Snapshot
    decreases |deliveries|
  {
    if deliveries == [] then client
    else Feed(Deliver(client, deliveries[0]), deliveries[1..])
  }

  // Not an event of this stream: malformed, or of another session or stream.
  predicate Foreign(first: Snapshot, e: Envelope) {
    !e.Valid() || e.threadId != first.threadId || e.cursor.streamId != first.cursor.streamId
  }

  // How far deliveries carry a client that starts at k: only the successor counts.
  function Reach(first: Snapshot, k: nat, deliveries: seq<Envelope>): (m: nat)
    ensures k <= m <= k + |deliveries|
    decreases |deliveries|
  {
    if deliveries == [] then k
    else
      var next := !Foreign(first, deliveries[0]) && deliveries[0].cursor.seqNo == k + 1;
      Reach(first, if next then k + 1 else k, deliveries[1..])
  }

  // Any mixture of duplicated, reordered, skipped and foreign envelopes leaves a client at
  // the fold of the stream up to its own cursor.
  lemma {:induction false} ClientConverges(first: Snapshot, log: seq<Envelope>, k: nat, deliveries: seq<Envelope>)
    requires Genuine(first, log) && k <= |log|
    requires forall e | e in deliveries :: e in log || Foreign(first, e)
    ensures StateAt(first, log[..k]).Some?
    ensures var m := Reach(first, k, deliveries);
            m <= |log| && StateAt(first, log[..m]) == Some(Feed(StateAt(first, log[..k]).value, deliveries))
    decreases |deliveries|
  {
    PrefixGenuine(first, log, k);
    if deliveries != [] {
      var e, s := deliveries[0], StateAt(first, log[..k]).value;
      StateFacts(first, log[..k]);
      if Foreign(first, e) {
        assert Deliver(s, e) == s;
        ClientConverges(first, log, k, deliveries[1..]);
      } else {
        var j :| 0 <= j < |log| && log[j] == e;
        EventAt(first, log, j);
        ApplyKnown(first, log, k, j);
        ClientConverges(first, log, if j == k then k + 1 else k, deliveries[1..]);
      }
    }
  }

  lemma {:induction false} ReachRun(first: Snapshot, log: seq<Envelope>, s: nat, t: nat)
    requires Genuine(first, log) && s <= t <= |log|
    ensures Reach(first, s, log[s..t]) == t
    decreases t - s
  {
    if s < t {
      EventAt(first, log, s);
      assert log[s..t][0] == log[s] && log[s..t][1..] == log[s + 1..t];
      ReachRun(first, log, s + 1, t);
    }
  }

  // A snapshot taken at s, and the events replayed from (s, t], make the snapshot at t.
  lemma CatchUp(first: Snapshot, log: seq<Envelope>, s: nat, t: nat)
    requires Genuine(first, log) && s <= t <= |log|
    ensures StateAt(first, log[..s]).Some?
    ensures StateAt(first, log[..t]) == Some(Feed(StateAt(first, log[..s]).value, log[s..t]))
  {
    ReachRun(first, log, s, t);
    ClientConverges(first, log, s, log[s..t]);
  }

  // ---- One identity's events ----

  // Whether the last event about an identity asked for it.
  predicate Live(log: seq<Envelope>, id: Identity) {
    log != [] && (
      var last := log[|log| - 1].payload;
      if last.Subject() == id then last.Requested? else Live(log[..|log| - 1], id))
  }

  // Requested, Removed, Requested, ...
  predicate Alternates(log: seq<Envelope>, id: Identity) {
    log != [] ==>
      var init, last := log[..|log| - 1], log[|log| - 1].payload;
      && Alternates(init, id)
      && (last.Subject() == id ==> (last.Requested? <==> !Live(init, id)))
  }

  lemma {:induction false} PendingIsLive(first: Snapshot, log: seq<Envelope>, id: Identity)
    requires Genuine(first, log)
    ensures Alternates(log, id)
    ensures id in IdsOf(StateAt(first, log).value.pending) <==> Live(log, id)
  {
    if log != [] {
      var init, e := log[..|log| - 1], log[|log| - 1];
      LastGoesIn(first, log);
      PendingIsLive(first, init, id);
      StateFacts(first, init);
      var s := StateAt(first, init).value;
      ApplyMeaning(s, e);
      if e.payload.Requested? { IdsAdd(s.pending, e.payload.interaction); }
    }
  }
}
