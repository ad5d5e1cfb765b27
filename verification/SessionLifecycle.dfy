// Who owns a session and in which phase it is: preparation, opening, closing and
// disconnection, each under the lifecycle lock.
module SessionLifecycles {
  import opened Basics

  datatype Phase =
    | Preparing(completion: nat, closeRequested: bool)
    | Open
    | Closing(completion: nat)
    | Closed
  {
    function Rank(): nat {
      match this
      case Preparing(_, asked) => if asked then 1 else 0
      case Open => 2
      case Closing(_) => 3
      case Closed => 4
    }
  }

  datatype SessionOwner = SessionOwner(owner: string, phase: Phase)

  datatype Refusal = ConnectionClosed | SessionAlreadyExists | SessionNotFound | SessionClosed | Rejected

  // What a waiting closer reads.
  datatype Completed = Succeeded | Failed

  // Phases only move forward, and nobody changes hands.
  ghost predicate Forward(was: map<string, SessionOwner>, now: map<string, SessionOwner>) {
    forall t | t in was :: t in now && now[t].owner == was[t].owner && was[t].phase.Rank() <= now[t].phase.Rank()
  }

  // `cells` names the thread that each completion was made for.
  predicate SessionOk(thread: string, session: SessionOwner, firsts: nat, disconnected: set<string>,
                      cells: seq<string>)
  {
    match session.phase
    case Preparing(completion, _) => firsts == 0 && completion < |cells| && cells[completion] == thread
    case Open => firsts == 0 && session.owner !in disconnected
    case Closing(completion) => firsts == 1 && completion < |cells| && cells[completion] == thread
    case Closed => firsts <= 1
  }

  ghost predicate TableOk(sessions: map<string, SessionOwner>, firsts: map<string, nat>, disconnected: set<string>,
                          cells: seq<string>) {
    && firsts.Keys == sessions.Keys
    && forall t | t in sessions :: SessionOk(t, sessions[t], firsts[t], disconnected, cells)
  }

  // One session changes, and completions may be added.
  lemma TableUpdate(sessions: map<string, SessionOwner>, firsts: map<string, nat>, disconnected: set<string>,
                    cells: seq<string>, thread: string, session: SessionOwner, first: nat, more: seq<string>)
    requires TableOk(sessions, firsts, disconnected, cells) && cells <= more
    requires SessionOk(thread, session, first, disconnected, more)
    ensures TableOk(sessions[thread := session], firsts[thread := first], disconnected, more)
  {
  }

  lemma TableDisconnects(sessions: map<string, SessionOwner>, firsts: map<string, nat>, disconnected: set<string>,
                         cells: seq<string>, owner: string)
    requires TableOk(sessions, firsts, disconnected, cells)
    requires forall t | t in sessions :: sessions[t] != SessionOwner(owner, Open)
    ensures TableOk(sessions, firsts, disconnected + {owner}, cells)
  {
  }

  // No two sessions have their closers wait for one completion.
  lemma WaitsApart(lifecycle: SessionLifecycle, s: string, t: string)
    requires lifecycle.Valid() && s in lifecycle.sessions && t in lifecycle.sessions && s != t
    ensures var a, b := CloseWaits(lifecycle.sessions[s]), CloseWaits(lifecycle.sessions[t]);
            a.Some? ==> a.value < |lifecycle.completions| && a != b
  {
    var sessions, firsts := lifecycle.sessions, lifecycle.firsts;
    assert SessionOk(s, sessions[s], firsts[s], lifecycle.disconnected, lifecycle.cells);
    assert SessionOk(t, sessions[t], firsts[t], lifecycle.disconnected, lifecycle.cells);
  }

  // What a close makes of a session: one in preparation is marked, an open one starts closing
  // with a completion of its own, and one that is closing or closed stays as it is.
  predicate CloseMarks(was: SessionOwner, now: SessionOwner) {
    && now.owner == was.owner
    && match was.phase
       case Preparing(c, _) => now.phase == Preparing(c, true)
       case Open => now.phase.Closing?
       case _ => now.phase == was.phase
  }

  // The completion that a closer of the session waits for.
  function CloseWaits(session: SessionOwner): Option<nat> {
    match session.phase
    case Preparing(c, _) => Some(c)
    case Closing(c) => Some(c)
    case _ => None
  }

  // Only the owner's session is closed.
  function Closes(sessions: map<string, SessionOwner>, thread: string, owner: string): map<string, SessionOwner> {
    if thread in sessions && sessions[thread].owner == owner then sessions[thread := SessionOwner(owner, Closed)]
    else sessions
  }

  // Still in preparation, and nobody has asked to close it.
  predicate MayOpen(sessions: map<string, SessionOwner>, thread: string, owner: string) {
    && thread in sessions && sessions[thread].owner == owner
    && sessions[thread].phase.Preparing? && !sessions[thread].phase.closeRequested
  }

  // The sessions of `done` have been marked by a close; the others are as they were.
  ghost predicate Swept(was: map<string, SessionOwner>, now: map<string, SessionOwner>, done: set<string>) {
    && now.Keys == was.Keys
    && forall t | t in was :: if t in done then CloseMarks(was[t], now[t]) else now[t] == was[t]
  }

  lemma SweptMore(was: map<string, SessionOwner>, now: map<string, SessionOwner>, next: map<string, SessionOwner>,
                  done: set<string>, thread: string)
    requires Swept(was, now, done) && thread in was && thread !in done && thread in next
    requires next == now[thread := next[thread]] && CloseMarks(now[thread], next[thread])
    ensures Swept(was, next, done + {thread})
  {
  }

  lemma ToldMore(was: map<string, SessionOwner>, now: map<string, SessionOwner>, next: map<string, SessionOwner>,
                 closes: map<string, (bool, Option<nat>)>, thread: string, told: (bool, Option<nat>))
    requires Told(was, now, closes) && thread in was && thread !in closes && thread in next
    requires next == now[thread := next[thread]] && told == (was[thread].phase.Open?, CloseWaits(next[thread]))
    ensures Told(was, next, closes[thread := told])
  {
  }

  lemma NewCellsMore(a: seq<Option<Completed>>, b: seq<Option<Completed>>, c: seq<Option<Completed>>)
    requires NewCells(a, b) && NewCells(b, c)
    ensures NewCells(a, c)
  {
    forall k | |a| <= k < |c| ensures c[k].None? {
      if k < |b| { assert c[k] == b[k]; }
    }
  }

  lemma SweptForward(was: map<string, SessionOwner>, now: map<string, SessionOwner>, owner: string)
    requires Swept(was, now, OwnedBy(was, owner))
    ensures Forward(was, now) && forall t | t in now :: now[t] != SessionOwner(owner, Open)
  {
  }

  lemma Move<T>(done: set<T>, rest: set<T>, x: T)
    requires x in rest && done !! rest
    ensures (done + {x}) + (rest - {x}) == done + rest && (done + {x}) !! (rest - {x})
  {
  }

  function OwnedBy(sessions: map<string, SessionOwner>, owner: string): set<string> {
    set t | t in sessions && sessions[t].owner == owner
  }

  // A close is the first one exactly where the session was open, and waits for the session's completion.
  ghost predicate Told(was: map<string, SessionOwner>, now: map<string, SessionOwner>,
                       closes: map<string, (bool, Option<nat>)>) {
    forall t | t in closes ::
      t in was && t in now && closes[t] == (was[t].phase.Open?, CloseWaits(now[t]))
  }

  // Cells may be added, for closers that have yet to be told; none is written.
  predicate NewCells(was: seq<Option<Completed>>, now: seq<Option<Completed>>) {
    was <= now && forall k | |was| <= k < |now| :: now[k].None?
  }

  // Reserves a session id while its storage is prepared.
  class Preparation {
    const thread: string
    const owner: string
    const completion: nat
    var finished: bool

    constructor (thread: string, owner: string, completion: nat)
      ensures this.thread == thread && this.owner == owner && this.completion == completion && !finished
    {
      this.thread, this.owner, this.completion, finished := thread, owner, completion, false;
    }
  }

  class SessionLifecycle {
    var sessions: map<string, SessionOwner>
    var disconnected: set<string>
    // One cell for each close or preparation that others wait for.
    var completions: seq<Option<Completed>>
    // How many callers were told to close this session first, and whose each completion is.
    ghost var firsts: map<string, nat>
    ghost var cells: seq<string>

    // A disconnected owner has no open session, and an open session had no closer yet.
    ghost predicate Valid()
      reads this
    {
      |cells| == |completions| && TableOk(sessions, firsts, disconnected, cells)
    }

    constructor ()
      ensures Valid() && sessions == map[]
    {
      sessions, disconnected, completions, firsts, cells := map[], {}, [], map[], [];
    }

    // guard_open
    method GuardOpen(thread: string, owner: string) returns (r: Result<bool, Refusal>)
      requires Valid()
      ensures r.Ok? <==> thread in sessions && sessions[thread] == SessionOwner(owner, Open)
      ensures r.Ok? ==> r.value && owner !in disconnected
      ensures r == Err(ConnectionClosed) <==> owner in disconnected
      ensures r == Err(SessionClosed) ==> thread in sessions && sessions[thread].owner == owner
      ensures r == Err(SessionNotFound) ==> thread !in sessions || sessions[thread].owner != owner
      ensures r.Ok? || r == Err(ConnectionClosed) || r == Err(SessionClosed) || r == Err(SessionNotFound)
    {
      if owner in disconnected { return Err(ConnectionClosed); }
      if thread !in sessions || sessions[thread].owner != owner { return Err(SessionNotFound); }
      return if sessions[thread].phase == Open then Ok(true) else Err(SessionClosed);
    }

    // publish, where `published` is what the publication itself answers
    method Publish(thread: string, owner: string, published: bool) returns (r: Result<bool, Refusal>)
      requires Valid()
      modifies this`sessions, this`firsts
      ensures Valid() && Forward(old(sessions), sessions)
      ensures r == if owner in disconnected then Err(ConnectionClosed)
                   else if thread in old(sessions) then Err(SessionAlreadyExists)
                   else if !published then Err(Rejected)
                   else Ok(true)
      ensures sessions == if r.Ok? then old(sessions)[thread := SessionOwner(owner, Open)] else old(sessions)
      ensures firsts == if r.Ok? then old(firsts)[thread := 0] else old(firsts)
    {
      if owner in disconnected { return Err(ConnectionClosed); }
      if thread in sessions { return Err(SessionAlreadyExists); }
      if !published { return Err(Rejected); }
      sessions, firsts := sessions[thread := SessionOwner(owner, Open)], firsts[thread := 0];
      r := Ok(true);
    }

    // mark_closing: the first closer of an open session gets a fresh completion.
    method MarkClosing(thread: string) returns (first: bool, completion: Option<nat>)
      requires Valid() && thread in sessions
      modifies this`sessions, this`completions, this`firsts, this`cells
      ensures Valid() && Forward(old(sessions), sessions)
      ensures first <==> old(sessions[thread].phase).Open?
      ensures sessions == old(sessions)[thread := sessions[thread]]
              && CloseMarks(old(sessions)[thread], sessions[thread])
      ensures firsts == old(firsts)[thread := old(firsts)[thread] + (if first then 1 else 0)]
      ensures completion == CloseWaits(sessions[thread]) && (first ==> completion == Some(|old(completions)|))
      ensures completions == old(completions) + (if first then [None] else [])
    {
      var session := sessions[thread];
      match session.phase {
        case Preparing(c, _) =>
          TableUpdate(sessions, firsts, disconnected, cells, thread, session.(phase := Preparing(c, true)),
                      firsts[thread], cells);
          assert firsts[thread := firsts[thread]] == firsts;
          sessions := sessions[thread := session.(phase := Preparing(c, true))];
          return false, Some(c);
        case Open =>
          completion := Some(|completions|);
          TableUpdate(sessions, firsts, disconnected, cells, thread, session.(phase := Closing(|completions|)),
                      firsts[thread] + 1, cells + [thread]);
          completions, cells := completions + [None], cells + [thread];
          sessions := sessions[thread := session.(phase := Closing(completion.value))];
          firsts := firsts[thread := firsts[thread] + 1];
          first := true;
        case Closing(c) => return false, Some(c);
        case Closed => return false, None;
      }
    }

    // begin_close
    method BeginClose(thread: string, owner: string) returns (r: Result<(bool, Option<nat>), Refusal>)
      requires Valid()
      modifies this`sessions, this`completions, this`firsts, this`cells
      ensures Valid() && Forward(old(sessions), sessions)
      ensures r.Err? <==> thread in old(sessions) && old(sessions)[thread].owner != owner
      ensures r.Err? ==> r == Err(SessionNotFound)
      ensures r.Ok? && r.value.0 <==> thread in old(sessions) && old(sessions)[thread] == SessionOwner(owner, Open)
      ensures r.Err? || thread !in old(sessions) ==>
        sessions == old(sessions) && completions == old(completions) && firsts == old(firsts)
      ensures r.Ok? && thread !in old(sessions) ==> r.value == (false, None)
      ensures r.Ok? && thread in old(sessions) ==>
        && sessions == old(sessions)[thread := sessions[thread]] && CloseMarks(old(sessions)[thread], sessions[thread])
        && r.value.1 == CloseWaits(sessions[thread]) && (r.value.0 ==> r.value.1 == Some(|old(completions)|))
        && completions == old(completions) + (if r.value.0 then [None] else [])
    {
      if thread !in sessions { return Ok((false, None)); }
      if sessions[thread].owner != owner { return Err(SessionNotFound); }
      var first, completion := MarkClosing(thread);
      r := Ok((first, completion));
    }

    // begin_disconnect: every session of the owner starts closing, and the owner opens no more. The
    // answer says for each of them whether this is its first close, and what to wait for.
    method BeginDisconnect(owner: string) returns (closes: map<string, (bool, Option<nat>)>)
      requires Valid()
      modifies this
      ensures Valid() && Forward(old(sessions), sessions)
      // Those in preparation are asked to close, so none of them opens either.
      ensures Swept(old(sessions), sessions, OwnedBy(old(sessions), owner))
      ensures disconnected == old(disconnected) + {owner}
      ensures closes.Keys == OwnedBy(old(sessions), owner) && Told(old(sessions), sessions, closes)
      ensures NewCells(old(completions), completions)
    {
      ghost var was := sessions;
      closes := MarkOwned(owner);
      SweptForward(was, sessions, owner);
      TableDisconnects(sessions, firsts, disconnected, cells, owner);
      disconnected := disconnected + {owner};
    }

    method MarkOwned(owner: string) returns (closes: map<string, (bool, Option<nat>)>)
      requires Valid()
      modifies this`sessions, this`completions, this`firsts, this`cells
      ensures Valid() && NewCells(old(completions), completions)
      ensures Swept(old(sessions), sessions, OwnedBy(old(sessions), owner))
      ensures closes.Keys == OwnedBy(old(sessions), owner) && Told(old(sessions), sessions, closes)
    {
      var rest := OwnedBy(sessions, owner);
      ghost var was, mine, done := sessions, rest, {};
      closes := map[];
      while rest != {}
        invariant Valid() && done !! rest && done + rest == mine && rest <= was.Keys
        invariant Swept(was, sessions, done) && NewCells(old(completions), completions)
        invariant closes.Keys == done && Told(was, sessions, closes)
        decreases |rest|
      {
        var thread :| thread in rest;
        ghost var cellsBefore := completions;
        closes := MarkNext(thread, was, done, closes);
        NewCellsMore(old(completions), cellsBefore, completions);
        Move(done, rest, thread);
        rest, done := rest - {thread}, done + {thread};
      }
    }

    // One more session of a sweep.
    method MarkNext(thread: string, ghost was: map<string, SessionOwner>, ghost done: set<string>,
                    closes0: map<string, (bool, Option<nat>)>)
      returns (closes: map<string, (bool, Option<nat>)>)
      requires Valid() && thread in was && thread !in done && Swept(was, sessions, done)
      requires closes0.Keys == done && Told(was, sessions, closes0)
      modifies this`sessions, this`completions, this`firsts, this`cells
      ensures Valid() && Swept(was, sessions, done + {thread}) && NewCells(old(completions), completions)
      ensures closes.Keys == done + {thread} && Told(was, sessions, closes)
    {
      ghost var now := sessions;
      var first, completion := MarkClosing(thread);
      SweptMore(was, now, sessions, done, thread);
      ToldMore(was, now, sessions, closes0, thread, (first, completion));
      closes := closes0[thread := (first, completion)];
    }

    // complete
    method Complete(thread: string, owner: string)
      requires Valid()
      modifies this`sessions
      ensures Valid() && Forward(old(sessions), sessions)
      ensures sessions == Closes(old(sessions), thread, owner)
    {
      if thread in sessions && sessions[thread].owner == owner {
        sessions := sessions[thread := sessions[thread].(phase := Closed)];
      }
    }

    // forget_owner: the only way a session leaves the table
    method ForgetOwner(owner: string)
      requires Valid()
      modifies this`sessions, this`firsts
      ensures Valid()
      ensures sessions == map t | t in old(sessions) && old(sessions)[t].owner != owner :: old(sessions)[t]
      ensures firsts == map t | t in sessions :: old(firsts)[t]
    {
      sessions := map t | t in sessions && sessions[t].owner != owner :: sessions[t];
      firsts := map t | t in sessions :: firsts[t];
    }

    // reserve
    method Reserve(thread: string, owner: string) returns (r: Result<Preparation, Refusal>)
      requires Valid()
      modifies this`sessions, this`completions, this`firsts, this`cells
      ensures Valid() && Forward(old(sessions), sessions)
      ensures r.Ok? <==> owner !in disconnected && thread !in old(sessions)
      ensures r.Ok? ==>
        && fresh(r.value) && !r.value.finished && r.value.thread == thread && r.value.owner == owner
        && r.value.completion == |old(completions)| && completions == old(completions) + [None]
        && sessions == old(sessions)[thread := SessionOwner(owner, Preparing(r.value.completion, false))]
        && firsts == old(firsts)[thread := 0]
      ensures r.Err? ==>
        && r == Err(if owner in disconnected then ConnectionClosed else SessionAlreadyExists)
        && sessions == old(sessions) && completions == old(completions) && firsts == old(firsts)
    {
      if owner in disconnected { return Err(ConnectionClosed); }
      if thread in sessions { return Err(SessionAlreadyExists); }
      var completion := |completions|;
      completions, cells := completions + [None], cells + [thread];
      sessions, firsts := sessions[thread := SessionOwner(owner, Preparing(completion, false))], firsts[thread := 0];
      var preparation := new Preparation(thread, owner, completion);
      r := Ok(preparation);
    }

    // Preparation::publish: a session that was asked to close while it was prepared never opens.
    method PublishPrepared(preparation: Preparation, published: bool) returns (r: Result<bool, Refusal>)
      requires Valid() && preparation.completion < |completions|
      modifies this`sessions, this`completions, preparation
      ensures Valid() && Forward(old(sessions), sessions)
      ensures r == if preparation.owner in disconnected then Err(ConnectionClosed)
                   else if !MayOpen(old(sessions), preparation.thread, preparation.owner) then Err(SessionClosed)
                   else if !published then Err(Rejected)
                   else Ok(true)
      ensures r.Ok? ==>
                preparation.finished && completions == old(completions)[preparation.completion := Some(Succeeded)]
      ensures sessions == if r.Ok? then old(sessions)[preparation.thread := SessionOwner(preparation.owner, Open)]
              else old(sessions)
      ensures r.Err? ==> preparation.finished == old(preparation.finished) && completions == old(completions)
    {
      if preparation.owner in disconnected { return Err(ConnectionClosed); }
      if preparation.thread !in sessions { return Err(SessionClosed); }
      var session := sessions[preparation.thread];
      if session.owner != preparation.owner || !session.phase.Preparing? || session.phase.closeRequested {
        return Err(SessionClosed);
      }
      if !published { return Err(Rejected); }
      sessions := sessions[preparation.thread := session.(phase := Open)];
      preparation.finished := true;
      completions := completions[preparation.completion := Some(Succeeded)];
      r := Ok(true);
    }

    // Preparation::fail
    method FailPreparation(preparation: Preparation)
      requires Valid() && preparation.completion < |completions|
      modifies this`sessions, this`completions, preparation
      ensures Valid() && Forward(old(sessions), sessions) && preparation.finished
      ensures completions == old(completions)[preparation.completion := Some(Failed)]
      ensures sessions == Closes(old(sessions), preparation.thread, preparation.owner)
    {
      Complete(preparation.thread, preparation.owner);
      completions := completions[preparation.completion := Some(Failed)];
      preparation.finished := true;
    }

    // Its drop: an unfinished preparation closes its session and wakes closers.
    method DropPreparation(preparation: Preparation)
      requires Valid() && preparation.completion < |completions|
      modifies this`sessions, this`completions
      ensures Valid() && Forward(old(sessions), sessions)
      ensures preparation.finished ==> sessions == old(sessions) && completions == old(completions)
      ensures !preparation.finished ==>
        && completions == old(completions)[preparation.completion := Some(Succeeded)]
        && sessions == Closes(old(sessions), preparation.thread, preparation.owner)
    {
      if preparation.finished { return; }
      Complete(preparation.thread, preparation.owner);
      completions := completions[preparation.completion := Some(Succeeded)];
    }
  }
}
