// One session's two projections and its history archive, published together: the first
// projection sees run events only, the second also metadata and lifecycle changes.
module DualPublication {
  import opened Basics
  import opened Journal
  import opened HistoryArchives

  datatype Lifecycle = Open | Closing | Closed

  // What a run publishes. A Finished event carries the items it adds to the history.
  datatype Mutation =
    | Begin(turnId: string, run: string, identity: nat)
    | Changed(turnId: string, run: string)
    | Event(turnId: string, event: string)
    | Finished(turnId: string, items: seq<Item>)
  {
    function Identity(): Option<(string, nat)> {
      if Begin? then Some((turnId, identity)) else None
    }
  }

  datatype Event2 = OfRun(mutation: Mutation) | MetadataChanged(metadata: string)
    | LifecycleChanged(lifecycle: Lifecycle)

  // How views absorb events, which this model does not look into, and what can be read off them.
  datatype Rules<!V1(!new), !V2(!new)> = Rules(
    apply1: (V1, Mutation) -> Option<V1>,
    apply2: (V2, Event2) -> Option<V2>,
    active1: V1 -> Option<string>,
    active2: V2 -> Option<string>,
    lifecycle: V2 -> Lifecycle,
    metadata: V2 -> string,
    revision: V2 -> nat,
    size1: (nat, Mutation) -> nat,
    size2: (nat, Event2) -> nat,
    limits1: Limits,
    limits2: Limits)
  {
    // A lifecycle event sets the lifecycle, and no other event touches it.
    ghost predicate Honest() {
      forall v, e | apply2(v, e).Some? ::
        lifecycle(apply2(v, e).value) == if e.LifecycleChanged? then e.lifecycle else lifecycle(v)
    }
  }

  datatype Projection<+V, +E> = Projection(view: V, cursor: nat, window: Window<E>, runs: map<string, nat>)

  ghost predicate Tracks<V, E>(p: Projection<V, E>, log: seq<Entry<E>>, barrier: nat, limits: Limits) {
    Numbered(log) && |log| == p.cursor && barrier <= |log| && p.window == Retained(log, barrier, limits)
  }

  // prepare: the projection after one more event, on a copy.
  method Prepare<V, E>(p: Projection<V, E>, apply: (V, E) -> Option<V>, payload: E, bytes: nat, run: Option<string>,
                       identity: Option<(string, nat)>, limits: Limits, ghost log: seq<Entry<E>>, ghost barrier: nat)
    returns (next: Option<Projection<V, E>>)
    requires Tracks(p, log, barrier, limits)
    ensures next.Some? <==> p.cursor < LAST_SEQ && apply(p.view, payload).Some?
    ensures next.Some? ==>
      && next.value.view == apply(p.view, payload).value
      && Tracks(next.value, log + [Entry(p.cursor + 1, bytes, run, payload)], barrier, limits)
      && next.value.runs == (if identity.Some? then p.runs[identity.value.0 := identity.value.1] else p.runs)
  {
    if p.cursor >= LAST_SEQ { return None; }
    var applied := apply(p.view, payload);
    if applied.None? { return None; }
    var entry := Entry(p.cursor + 1, bytes, run, payload);
    var entries, size, floor := Retain(p.window.entries, p.window.bytes, p.window.floor, limits, entry, log, barrier);
    next := Some(Projection(applied.value, p.cursor + 1, Window(entries, size, floor),
                            if identity.Some? then p.runs[identity.value.0 := identity.value.1] else p.runs));
  }

  predicate CanRetire<V, E>(p: Projection<V, E>, active: Option<string>, turnId: string, identity: nat) {
    turnId in p.runs && p.runs[turnId] == identity && active != Some(turnId)
  }

  // prepare_retire_run
  method PrepareRetire<V, E>(p: Projection<V, E>, active: Option<string>, turnId: string, identity: nat,
                             ghost limits: Limits, ghost log: seq<Entry<E>>, ghost barrier: nat)
    returns (next: Option<Projection<V, E>>)
    requires Tracks(p, log, barrier, limits)
    ensures next.Some? <==> CanRetire(p, active, turnId, identity)
    ensures next.Some? ==>
      && Tracks(next.value, log, Max(barrier, LastOf(log, turnId)), limits)
      && next.value.view == p.view && next.value.runs == p.runs - {turnId}
      && forall e | e in next.value.window.entries :: e.run != Some(turnId)
  {
    if turnId !in p.runs || p.runs[turnId] != identity || active == Some(turnId) { return None; }
    var entries, size, floor := ScrubRun(p.window.entries, p.window.bytes, p.window.floor, turnId, log, barrier,
      limits);
    ScrubForgets(log, barrier, turnId, limits);
    next := Some(Projection(p.view, p.cursor, Window(entries, size, floor), p.runs - {turnId}));
  }

  // ---- What the logs say ----

  // The run events of the second log, in order.
  function RunEvents(log: seq<Entry<Event2>>): seq<Mutation> {
    if log == [] then []
    else
      var init, last := RunEvents(log[..|log| - 1]), log[|log| - 1].payload;
      if last.OfRun? then init + [last.mutation] else init
  }

  // The items of every Finished event, in order.
  function FinishedItems(ms: seq<Mutation>): seq<Item> {
    if ms == [] then []
    else
      var init, last := FinishedItems(ms[..|ms| - 1]), ms[|ms| - 1];
      if last.Finished? then init + last.items else init
  }

  function LifecycleAt(log: seq<Entry<Event2>>): Lifecycle {
    if log == [] then Open
    else if log[|log| - 1].payload.LifecycleChanged? then log[|log| - 1].payload.lifecycle
    else LifecycleAt(log[..|log| - 1])
  }

  // Metadata changes while the session is open; it then closes once, in two stages.
  predicate ClosesOnce(log: seq<Entry<Event2>>) {
    log != [] ==>
      var init, last := log[..|log| - 1], log[|log| - 1].payload;
      && ClosesOnce(init)
      && (last.MetadataChanged? ==> LifecycleAt(init) == Open)
      && (last.LifecycleChanged? ==>
            (LifecycleAt(init) == Open && last.lifecycle == Closing)
              || (LifecycleAt(init) == Closing && last.lifecycle == Closed))
  }

  lemma LogsSnoc(log1: seq<Entry<Mutation>>, log2: seq<Entry<Event2>>, e1: Entry<Mutation>, e2: Entry<Event2>)
    ensures Payloads(log1 + [e1]) == Payloads(log1) + [e1.payload]
    ensures RunEvents(log2 + [e2]) == RunEvents(log2) + (if e2.payload.OfRun? then [e2.payload.mutation] else [])
    ensures FinishedItems(Payloads(log1) + [e1.payload]) ==
            FinishedItems(Payloads(log1)) + (if e1.payload.Finished? then e1.payload.items else [])
    ensures LifecycleAt(log2 + [e2]) == if e2.payload.LifecycleChanged? then e2.payload.lifecycle else LifecycleAt(log2)
  {
    assert (log1 + [e1])[..|log1|] == log1 && (log2 + [e2])[..|log2|] == log2;
    assert Payloads(log1 + [e1]) == Payloads(log1) + [e1.payload];
    assert (Payloads(log1) + [e1.payload])[..|log1|] == Payloads(log1);
  }

  // Every event of a run is entered under that run.
  ghost predicate Labelled(log: seq<Entry<Mutation>>) {
    log != [] ==> Labelled(log[..|log| - 1]) && log[|log| - 1].run == Some(log[|log| - 1].payload.turnId)
  }

  ghost predicate Labelled2(log: seq<Entry<Event2>>) {
    log != [] ==>
      var last := log[|log| - 1];
      Labelled2(log[..|log| - 1]) && (last.payload.OfRun? ==> last.run == Some(last.payload.mutation.turnId))
  }

  lemma {:induction false} LabelledMeans(log: seq<Entry<Mutation>>, e: Entry<Mutation>)
    requires Labelled(log) && e in log
    ensures e.run == Some(e.payload.turnId)
  {
    if e != log[|log| - 1] {
      assert log == log[..|log| - 1] + [log[|log| - 1]];
      LabelledMeans(log[..|log| - 1], e);
    }
  }

  lemma {:induction false} Labelled2Means(log: seq<Entry<Event2>>, e: Entry<Event2>)
    requires Labelled2(log) && e in log
    ensures e.payload.OfRun? ==> e.run == Some(e.payload.mutation.turnId)
  {
    if e != log[|log| - 1] {
      assert log == log[..|log| - 1] + [log[|log| - 1]];
      Labelled2Means(log[..|log| - 1], e);
    }
  }

  // The first log is the run events of the second, the archive is what the session started
  // with and every finished run's items, and the session closes once.
  ghost predicate OneStory(log1: seq<Entry<Mutation>>, log2: seq<Entry<Event2>>, initial: seq<Item>,
                           archived: seq<Item>) {
    && RunEvents(log2) == Payloads(log1)
    && archived == initial + FinishedItems(Payloads(log1))
    && ClosesOnce(log2) && Labelled(log1) && Labelled2(log2)
  }

  lemma RunStory(log1: seq<Entry<Mutation>>, log2: seq<Entry<Event2>>, initial: seq<Item>, archived: seq<Item>,
                 e1: Entry<Mutation>, e2: Entry<Event2>)
    requires OneStory(log1, log2, initial, archived) && e2.payload == OfRun(e1.payload)
    requires e1.run == Some(e1.payload.turnId) && e2.run == Some(e1.payload.turnId)
    ensures var more := if e1.payload.Finished? then e1.payload.items else [];
            OneStory(log1 + [e1], log2 + [e2], initial, archived + more)
    ensures LifecycleAt(log2 + [e2]) == LifecycleAt(log2)
  {
    LogsSnoc(log1, log2, e1, e2);
    assert (log1 + [e1])[..|log1|] == log1 && (log2 + [e2])[..|log2|] == log2;
  }

  lemma OtherStory(log1: seq<Entry<Mutation>>, log2: seq<Entry<Event2>>, initial: seq<Item>, archived: seq<Item>,
                   e: Entry<Event2>)
    requires OneStory(log1, log2, initial, archived)
    requires match e.payload
             case OfRun(_) => false
             case MetadataChanged(_) => LifecycleAt(log2) == Open
             case LifecycleChanged(l) => l != Open && LifecycleAt(log2) == if l == Closing then Open else Closing
    ensures OneStory(log1, log2 + [e], initial, archived)
    ensures LifecycleAt(log2 + [e]) == if e.payload.LifecycleChanged? then e.payload.lifecycle else LifecycleAt(log2)
  {
    assert (log2 + [e])[..|log2|] == log2;
  }

  // After Closed no later event of a session is a metadata or lifecycle change.
  lemma {:induction false} ClosedIsFinal(log: seq<Entry<Event2>>, n: nat)
    requires ClosesOnce(log) && n <= |log| && LifecycleAt(log[..n]) == Closed
    ensures LifecycleAt(log) == Closed
    ensures forall k | n <= k < |log| :: log[k].payload.OfRun?
  {
    if n < |log| {
      var init := log[..|log| - 1];
      assert init[..n] == log[..n];
      ClosedIsFinal(init, n);
    } else {
      assert log[..n] == log;
    }
  }

  // ---- The session ----

  datatype Failure = InvalidProjection | NotOpen | RevisionConflict | Storage | Unavailable

  class Session<V1(!new), V2(!new)> {
    const rules: Rules<V1, V2>
    var v1: Projection<V1, Mutation>
    var v2: Projection<V2, Event2>
    var archive: HistoryArchive
    var acceptingMetadata: bool
    ghost var log1: seq<Entry<Mutation>>
    ghost var log2: seq<Entry<Event2>>
    ghost var barrier1: nat
    ghost var barrier2: nat
    ghost var initial: seq<Item>

    // Both projections and the archive tell the same story.
    ghost predicate Valid()
      reads this, archive
    {
      && rules.Honest() && archive.Valid()
      && Tracks(v1, log1, barrier1, rules.limits1) && Tracks(v2, log2, barrier2, rules.limits2)
      && v1.runs == v2.runs
      && OneStory(log1, log2, initial, Payloads(archive.log))
      && LifecycleAt(log2) == rules.lifecycle(v2.view)
    }

    constructor (rules: Rules<V1, V2>, view1: V1, view2: V2, archive: HistoryArchive)
      requires rules.Honest() && archive.Valid() && rules.lifecycle(view2) == Open
      ensures Valid() && this.rules == rules && this.archive == archive && acceptingMetadata
      ensures v1 == Projection(view1, 0, Window([], 0, 0), map[]) && v2 == Projection(view2, 0, Window([], 0, 0), map[])
      ensures initial == Payloads(archive.log)
    {
      this.rules, this.archive, acceptingMetadata := rules, archive, true;
      v1 := Projection(view1, 0, Window([], 0, 0), map[]);
      v2 := Projection(view2, 0, Window([], 0, 0), map[]);
      log1, log2, barrier1, barrier2, initial := [], [], 0, 0, Payloads(archive.log);
    }

    // run_id of a journal entry: the event's own run
    function Entry1(m: Mutation): Entry<Mutation>
      reads this
    {
      Entry(v1.cursor + 1, rules.size1(v1.cursor + 1, m), Some(m.turnId), m)
    }

    // ... or, for an event of no run, the run that is active.
    function Entry2(e: Event2): Entry<Event2>
      reads this
    {
      Entry(v2.cursor + 1, rules.size2(v2.cursor + 1, e),
            if e.OfRun? then Some(e.mutation.turnId) else rules.active2(v2.view), e)
    }

    predicate Takes1(m: Mutation)
      reads this
    {
      && (m.Changed? ==> rules.active1(v1.view) == Some(m.turnId))
      && v1.cursor < LAST_SEQ && rules.apply1(v1.view, m).Some?
    }

    predicate Takes2(e: Event2)
      reads this
    {
      && (e.OfRun? && e.mutation.Changed? ==> rules.active2(v2.view) == Some(e.mutation.turnId))
      && v2.cursor < LAST_SEQ && rules.apply2(v2.view, e).Some?
    }

    ghost predicate TakesItems(m: Mutation)
      reads this, archive
    {
      m.Finished? ==> Appended(archive.log, m.items, archive.limits, archive.sizeOf).Ok?
    }

    // The first projection after a run's mutation, if it takes it.
    method PrepareFirst(m: Mutation) returns (next: Option<Projection<V1, Mutation>>)
      requires Valid()
      ensures next.Some? <==> Takes1(m)
      ensures next.Some? ==>
        && Tracks(next.value, log1 + [Entry1(m)], barrier1, rules.limits1)
        && next.value.runs == Registered(v1.runs, m)
        && rules.apply1(v1.view, m) == Some(next.value.view)
    {
      if m.Changed? && rules.active1(v1.view) != Some(m.turnId) { return None; }
      next := Prepare(v1, rules.apply1, m, Entry1(m).bytes, Some(m.turnId), m.Identity(), rules.limits1, log1,
        barrier1);
    }

    // The second projection after any event.
    method PrepareSecond(e: Event2) returns (next: Option<Projection<V2, Event2>>)
      requires Valid()
      ensures next.Some? <==> Takes2(e)
      ensures next.Some? ==>
        && Tracks(next.value, log2 + [Entry2(e)], barrier2, rules.limits2)
        && next.value.runs == (if e.OfRun? then Registered(v2.runs, e.mutation) else v2.runs)
        && rules.apply2(v2.view, e) == Some(next.value.view)
        && rules.lifecycle(next.value.view) == (if e.LifecycleChanged? then e.lifecycle else rules.lifecycle(v2.view))
    {
      if e.OfRun? && e.mutation.Changed? && rules.active2(v2.view) != Some(e.mutation.turnId) { return None; }
      next := Prepare(v2, rules.apply2, e, Entry2(e).bytes, Entry2(e).run,
                      if e.OfRun? then e.mutation.Identity() else None, rules.limits2, log2, barrier2);
    }

    // The archive after a finished run's items.
    method PrepareArchive(m: Mutation) returns (next: HistoryArchive, ok: bool)
      requires Valid()
      ensures ok <==> TakesItems(m)
      ensures ok ==> next.Valid() && Updated(next, archive, m)
      ensures ok && m.Finished? ==> fresh(next)
    {
      if !m.Finished? { return archive, true; }
      next, ok := archive.PrepareAppend(m.items);
    }

    // Everything that a run's mutation replaces, or nothing.
    method PrepareAll(m: Mutation)
      returns (next1: Option<Projection<V1, Mutation>>, next2: Option<Projection<V2, Event2>>,
                nextArchive: HistoryArchive, ok: bool)
      requires Valid()
      ensures ok <==> Takes1(m) && Takes2(OfRun(m)) && TakesItems(m)
      ensures ok ==> next1.Some? && next2.Some? && Installable(m, next1.value, next2.value, nextArchive)
      ensures ok && m.Finished? ==> fresh(nextArchive)
    {
      nextArchive, ok := archive, false;
      next2 := None;
      next1 := PrepareFirst(m);
      if next1.None? { return; }
      next2 := PrepareSecond(OfRun(m));
      if next2.None? { return; }
      nextArchive, ok := PrepareArchive(m);
    }

    ghost predicate Installable(m: Mutation, next1: Projection<V1, Mutation>, next2: Projection<V2, Event2>,
                                nextArchive: HistoryArchive)
      reads this, archive, nextArchive
    {
      && Tracks(next1, log1 + [Entry1(m)], barrier1, rules.limits1)
      && Tracks(next2, log2 + [Entry2(OfRun(m))], barrier2, rules.limits2)
      && next1.runs == Registered(v1.runs, m) && next2.runs == Registered(v2.runs, m)
      && rules.apply1(v1.view, m) == Some(next1.view) && rules.apply2(v2.view, OfRun(m)) == Some(next2.view)
      && rules.lifecycle(next2.view) == rules.lifecycle(v2.view)
      && nextArchive.Valid() && Updated(nextArchive, archive, m)
    }

    lemma StoryGoesOn(m: Mutation, nextArchive: HistoryArchive)
      requires Valid() && Updated(nextArchive, archive, m)
      ensures OneStory(log1 + [Entry1(m)], log2 + [Entry2(OfRun(m))], initial, Payloads(nextArchive.log))
      ensures LifecycleAt(log2 + [Entry2(OfRun(m))]) == LifecycleAt(log2)
    {
      RunStory(log1, log2, initial, Payloads(archive.log), Entry1(m), Entry2(OfRun(m)));
      if m.Finished? {
        AppendedPayloads(archive.log, nextArchive.log, m.items, archive.limits, archive.sizeOf);
      } else {
        assert Payloads(archive.log) + [] == Payloads(archive.log);
      }
    }

    // publish_run: prepare all three, then install all three.
    method PublishRun(m: Mutation) returns (ok: bool)
      requires Valid()
      modifies this`v1, this`v2, this`archive, this`log1, this`log2
      ensures Valid()
      ensures ok ==> log1 == old(log1 + [Entry1(m)]) && log2 == old(log2 + [Entry2(OfRun(m))])
      ensures !ok ==> v1 == old(v1) && v2 == old(v2) && archive == old(archive)
      ensures !ok ==> log1 == old(log1) && log2 == old(log2)
      ensures ok <==> old(Takes1(m) && Takes2(OfRun(m)) && TakesItems(m))
      ensures ok ==> rules.apply1(old(v1.view), m) == Some(v1.view)
      ensures ok ==> rules.apply2(old(v2.view), OfRun(m)) == Some(v2.view)
      // The run is registered, and a finished one's items go to a copy of the archive.
      ensures ok ==> v1.runs == Registered(old(v1.runs), m)
      ensures ok ==> Updated(archive, old(archive), m)
      ensures ok && m.Finished? ==> fresh(archive)
    {
      var next1, next2, nextArchive;
      next1, next2, nextArchive, ok := PrepareAll(m);
      if !ok { return; }
      InstallRun(m, next1.value, next2.value, nextArchive);
    }

    method InstallRun(ghost m: Mutation, next1: Projection<V1, Mutation>, next2: Projection<V2, Event2>,
                      nextArchive: HistoryArchive)
      requires Valid() && Installable(m, next1, next2, nextArchive)
      modifies this`v1, this`v2, this`archive, this`log1, this`log2
      ensures Valid() && v1 == next1 && v2 == next2 && archive == nextArchive
      ensures log1 == old(log1 + [Entry1(m)]) && log2 == old(log2 + [Entry2(OfRun(m))])
    {
      ghost var nextLog1, nextLog2 := log1 + [Entry1(m)], log2 + [Entry2(OfRun(m))];
      StoryGoesOn(m, nextArchive);
      Install(next1, next2, nextArchive, nextLog1, nextLog2);
    }

    method Install(next1: Projection<V1, Mutation>, next2: Projection<V2, Event2>, nextArchive: HistoryArchive,
                   ghost nextLog1: seq<Entry<Mutation>>, ghost nextLog2: seq<Entry<Event2>>)
      requires rules.Honest() && nextArchive.Valid() && next1.runs == next2.runs
      requires Tracks(next1, nextLog1, barrier1, rules.limits1) && Tracks(next2, nextLog2, barrier2, rules.limits2)
      requires OneStory(nextLog1, nextLog2, initial, Payloads(nextArchive.log))
      requires LifecycleAt(nextLog2) == rules.lifecycle(next2.view)
      modifies this`v1, this`v2, this`archive, this`log1, this`log2
      ensures Valid() && v1 == next1 && v2 == next2 && archive == nextArchive && log1 == nextLog1 && log2 == nextLog2
    {
      v1, v2, archive, log1, log2 := next1, next2, nextArchive, nextLog1, nextLog2;
    }

    // Replaces the second projection only. `durable` is the answer of the stored journal, where
    // there is one: it is asked after the event is prepared and before it is installed.
    method PublishOther(e: Event2, durable: bool) returns (failure: Option<Failure>)
      requires Valid()
      requires match e
               case OfRun(_) => false
               case MetadataChanged(_) => rules.lifecycle(v2.view) == Open
               case LifecycleChanged(l) =>
                 l != Open && rules.lifecycle(v2.view) == if l == Closing then Open else Closing
      modifies this`v2, this`log2
      ensures Valid()
      ensures failure ==
        if !old(Takes2(e)) then Some(Failure.InvalidProjection) else if !durable then Some(Storage) else None
      ensures failure.None? ==> log2 == old(log2 + [Entry2(e)]) && rules.apply2(old(v2.view), e) == Some(v2.view)
      ensures failure.Some? ==> v2 == old(v2) && log2 == old(log2)
    {
      var next := PrepareSecond(e);
      if next.None? { return Some(Failure.InvalidProjection); }
      if !durable { return Some(Storage); }
      OtherStory(log1, log2, initial, Payloads(archive.log), Entry2(e));
      log2, v2 := log2 + [Entry2(e)], next.value;
      failure := None;
    }

    // replace_metadata
    method ReplaceMetadata(expectedRevision: nat, metadata: string, durable: bool) returns (r: Result<bool, Failure>)
      requires Valid()
      modifies this`v2, this`log2
      ensures Valid()
      // The answer, and the order in which the refusals are checked.
      ensures r ==
        if !acceptingMetadata then Err(Unavailable)
        else if old(rules.lifecycle(v2.view)) != Open then Err(NotOpen)
        else if old(rules.revision(v2.view)) != expectedRevision then Err(RevisionConflict)
        else if old(rules.metadata(v2.view)) == metadata then Ok(false)
        else if !old(Takes2(MetadataChanged(metadata))) then Err(Failure.InvalidProjection)
        else if !durable then Err(Storage)
        else Ok(true)
      ensures r == Ok(true) ==>
        && log2 == old(log2 + [Entry2(MetadataChanged(metadata))])
        && rules.apply2(old(v2.view), MetadataChanged(metadata)) == Some(v2.view)
      ensures r != Ok(true) ==> v2 == old(v2) && log2 == old(log2)
    {
      if !acceptingMetadata { return Err(Unavailable); }
      if rules.lifecycle(v2.view) != Open { return Err(NotOpen); }
      if rules.revision(v2.view) != expectedRevision { return Err(RevisionConflict); }
      if rules.metadata(v2.view) == metadata { return Ok(false); }
      var failure := PublishOther(MetadataChanged(metadata), durable);
      r := if failure.None? then Ok(true) else Err(failure.value);
    }

    // begin_closing
    method BeginClosing() returns (ok: bool)
      requires Valid()
      modifies this`v2, this`log2
      ensures Valid()
      ensures ok <==> old(rules.lifecycle(v2.view)) != Open || old(Takes2(LifecycleChanged(Closing)))
      ensures ok ==> rules.lifecycle(v2.view) != Open
      ensures if ok && old(rules.lifecycle(v2.view)) == Open
              then log2 == old(log2 + [Entry2(LifecycleChanged(Closing))]) && rules.lifecycle(v2.view) == Closing
              else v2 == old(v2) && log2 == old(log2)
    {
      if rules.lifecycle(v2.view) != Open { return true; }
      var failure := PublishOther(LifecycleChanged(Closing), true);
      ok := failure.None?;
    }

    // complete_closed
    method CompleteClosed(durable: bool) returns (ok: bool)
      requires Valid()
      modifies this`v2, this`log2
      ensures Valid()
      ensures ok <==> match old(rules.lifecycle(v2.view))
                      case Open => false
                      case Closing => old(Takes2(LifecycleChanged(Closed))) && durable
                      case Closed => true
      ensures ok ==> rules.lifecycle(v2.view) == Closed
      ensures if ok && old(rules.lifecycle(v2.view)) == Closing
              then log2 == old(log2 + [Entry2(LifecycleChanged(Closed))])
              else v2 == old(v2) && log2 == old(log2)
    {
      match rules.lifecycle(v2.view) {
        case Open => return false;
        case Closed => return true;
        case Closing =>
          var failure := PublishOther(LifecycleChanged(Closed), durable);
          ok := failure.None?;
      }
    }

    // retire_run: both journals forget the run, or neither does.
    method RetireRun(turnId: string, identity: nat) returns (ok: bool)
      requires Valid()
      modifies this`v1, this`v2, this`barrier1, this`barrier2
      ensures Valid()
      ensures ok <==>
        && CanRetire(old(v1), rules.active1(old(v1).view), turnId, identity)
        && CanRetire(old(v2), rules.active2(old(v2).view), turnId, identity)
      // Each window is the longest suffix after the run's last event, and none of its events is in it.
      ensures ok ==>
        && barrier1 == Max(old(barrier1), LastOf(log1, turnId)) && barrier2 == Max(old(barrier2), LastOf(log2, turnId))
        && (forall e | e in v1.window.entries :: e.run != Some(turnId))
        && (forall e | e in v2.window.entries :: e.run != Some(turnId))
        && v1.runs == old(v1).runs - {turnId}
        && v1.view == old(v1).view && v2.view == old(v2).view
      ensures !ok ==> v1 == old(v1) && v2 == old(v2) && barrier1 == old(barrier1) && barrier2 == old(barrier2)
    {
      var next1 := PrepareRetire(v1, rules.active1(v1.view), turnId, identity, rules.limits1, log1, barrier1);
      if next1.None? { return false; }
      var next2 := PrepareRetire(v2, rules.active2(v2.view), turnId, identity, rules.limits2, log2, barrier2);
      if next2.None? { return false; }
      InstallRetired(next1.value, next2.value, Max(barrier1, LastOf(log1, turnId)),
        Max(barrier2, LastOf(log2, turnId)));
      ok := true;
    }

    method InstallRetired(next1: Projection<V1, Mutation>, next2: Projection<V2, Event2>, ghost nextBarrier1: nat,
                          ghost nextBarrier2: nat)
      requires Valid() && next1.runs == next2.runs && next2.view == v2.view
      requires Tracks(next1, log1, nextBarrier1, rules.limits1) && Tracks(next2, log2, nextBarrier2, rules.limits2)
      modifies this`v1, this`v2, this`barrier1, this`barrier2
      ensures Valid() && v1 == next1 && v2 == next2 && barrier1 == nextBarrier1 && barrier2 == nextBarrier2
    {
      v1, v2, barrier1, barrier2 := next1, next2, nextBarrier1, nextBarrier2;
    }
  }

  // When a session's projections take an event of a run, and how it is entered: under its run, with the next
  // number and its size. An event of no run is entered under the run that is active.
  lemma TakenAndEntered<V1(!new), V2(!new)>(session: Session<V1, V2>, m: Mutation, e: Event2)
    ensures session.Takes1(m) <==>
              && (m.Changed? ==> session.rules.active1(session.v1.view) == Some(m.turnId))
              && session.v1.cursor < LAST_SEQ && session.rules.apply1(session.v1.view, m).Some?
    ensures session.Takes2(OfRun(m)) <==>
              && (m.Changed? ==> session.rules.active2(session.v2.view) == Some(m.turnId))
              && session.v2.cursor < LAST_SEQ && session.rules.apply2(session.v2.view, OfRun(m)).Some?
    ensures !e.OfRun? ==>
              (session.Takes2(e) <==> session.v2.cursor < LAST_SEQ && session.rules.apply2(session.v2.view, e).Some?)
    ensures session.Entry1(m) ==
              Entry(session.v1.cursor + 1, session.rules.size1(session.v1.cursor + 1, m), Some(m.turnId), m)
    ensures session.Entry2(e) ==
              Entry(session.v2.cursor + 1, session.rules.size2(session.v2.cursor + 1, e),
                    if e.OfRun? then Some(e.mutation.turnId) else session.rules.active2(session.v2.view), e)
  {
  }

  // What is retained under other runs is of other runs: no window has an event of a retired run to replay.
  lemma RetainedIsLabelled<V1(!new), V2(!new)>(session: Session<V1, V2>, turnId: string)
    requires session.Valid()
    requires forall e | e in session.v1.window.entries :: e.run != Some(turnId)
    requires forall e | e in session.v2.window.entries :: e.run != Some(turnId)
    ensures forall e | e in session.v1.window.entries :: e.payload.turnId != turnId
    ensures forall e | e in session.v2.window.entries && e.payload.OfRun? :: e.payload.mutation.turnId != turnId
  {
    forall e | e in session.v1.window.entries ensures e.payload.turnId != turnId {
      LabelledMeans(session.log1, e);
    }
    forall e | e in session.v2.window.entries && e.payload.OfRun? ensures e.payload.mutation.turnId != turnId {
      Labelled2Means(session.log2, e);
    }
  }

  function Registered(runs: map<string, nat>, m: Mutation): map<string, nat> {
    if m.Begin? then runs[m.turnId := m.identity] else runs
  }

  // The archive itself, or for a finished run one with the same parameters and the run's items appended.
  ghost predicate Updated(next: HistoryArchive, archive: HistoryArchive, m: Mutation)
    reads next, archive
  {
    if m.Finished? then
      && Appended(archive.log, m.items, archive.limits, archive.sizeOf) == Ok(next.log)
      && next.limits == archive.limits && next.sizeOf == archive.sizeOf
      && next.threadId == archive.threadId && next.streamId == archive.streamId
    else next == archive
  }

  lemma {:induction false} AppendedPayloads(log: seq<Archived>, next: seq<Archived>, items: seq<Item>, limits: Limits,
                                            sizeOf: Item -> nat)
    requires Appended(log, items, limits, sizeOf) == Ok(next)
    ensures Payloads(next) == Payloads(log) + items
    decreases |items|
  {
    if items == [] {
      assert Payloads(log) + items == Payloads(log);
    } else {
      var more := log + [Stored(log, items[0], sizeOf)];
      AppendedPayloads(more, next, items[1..], limits, sizeOf);
      assert Payloads(more) == Payloads(log) + [items[0]];
      assert Payloads(log) + [items[0]] + items[1..] == Payloads(log) + items;
    }
  }
}
