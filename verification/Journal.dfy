// The bounded event journal: a suffix of an unbounded log, kept within an event
// limit and a byte limit, from which a finished run can be scrubbed.
module Journal {
  import opened Basics

  datatype Entry<+P> = Entry(seqNo: nat, bytes: nat, run: Option<string>, payload: P)

  datatype Limits = Limits(maxEvents: nat, maxBytes: nat)

  // The journal deque, its byte counter and the replay floor.
  datatype Window<+P> = Window(entries: seq<Entry<P>>, bytes: nat, floor: nat)

  function Payloads<P>(entries: seq<Entry<P>>): (ps: seq<P>)
    ensures |ps| == |entries| && forall k | 0 <= k < |ps| :: ps[k] == entries[k].payload
  {
    Each(entries, (e: Entry<P>) => e.payload)
  }

  function Size<P>(es: seq<Entry<P>>): nat {
    if es == [] then 0 else es[0].bytes + Size(es[1..])
  }

  ghost predicate Numbered<P>(log: seq<Entry<P>>) {
    forall k | 0 <= k < |log| :: log[k].seqNo == k + 1
  }

  predicate Fits<P>(log: seq<Entry<P>>, from: nat, limits: Limits)
    requires from <= |log|
  {
    |log| - from <= limits.maxEvents && Size(log[from..]) <= limits.maxBytes
  }

  // The first cut at or after `from` whose suffix fits both limits.
  function KeepFrom<P>(log: seq<Entry<P>>, from: nat, limits: Limits): (f: nat)
    requires from <= |log|
    ensures from <= f <= |log| && Fits(log, f, limits)
    ensures forall g | from <= g < f :: !Fits(log, g, limits)
    decreases |log| - from
  {
    if Fits(log, from, limits) then from else KeepFrom(log, from + 1, limits)
  }

  // One-shot retention: the longest suffix of the log after the barrier that fits.
  function Retained<P>(log: seq<Entry<P>>, barrier: nat, limits: Limits): Window<P>
    requires barrier <= |log|
  {
    var f := KeepFrom(log, barrier, limits);
    Window(log[f..], Size(log[f..]), f)
  }

  lemma {:induction false} SizeAppend<P>(es: seq<Entry<P>>, e: Entry<P>)
    ensures Size(es + [e]) == Size(es) + e.bytes
  {
    if es != [] {
      assert (es + [e])[1..] == es[1..] + [e];
      SizeAppend(es[1..], e);
    }
  }

  lemma {:induction false} SizeSuffix<P>(es: seq<Entry<P>>, n: nat)
    requires n <= |es|
    ensures Size(es[n..]) <= Size(es)
  {
    if n > 0 {
      assert es[1..][n - 1..] == es[n..];
      SizeSuffix(es[1..], n - 1);
    }
  }

  // Retention only ever moves forward: what did not fit before a commit does not fit after it.
  lemma FitsShrinks<P>(log: seq<Entry<P>>, e: Entry<P>, g: nat, limits: Limits)
    requires g <= |log| && Fits(log + [e], g, limits)
    ensures Fits(log, g, limits)
  {
    assert (log + [e])[g..] == log[g..] + [e];
    SizeAppend(log[g..], e);
  }

  lemma FitsSuffix<P>(log: seq<Entry<P>>, f: nat, g: nat, limits: Limits)
    requires f <= g <= |log| && Fits(log, f, limits)
    ensures Fits(log, g, limits)
  {
    assert log[f..][g - f..] == log[g..];
    SizeSuffix(log[f..], g - f);
  }

  lemma KeepIs<P>(log: seq<Entry<P>>, from: nat, f: nat, limits: Limits)
    requires from <= f <= |log| && Fits(log, f, limits)
    requires forall g | from <= g < f :: !Fits(log, g, limits)
    ensures KeepFrom(log, from, limits) == f
    decreases f - from
  {
    if from < f { KeepIs(log, from + 1, f, limits); }
  }

  // An event larger than the journal empties it.
  lemma OversizedEmpties<P>(log: seq<Entry<P>>, e: Entry<P>, barrier: nat, limits: Limits)
    requires barrier <= |log| && e.bytes > limits.maxBytes
    ensures Retained(log + [e], barrier, limits) == Window([], 0, |log| + 1)
  {
    var all := log + [e];
    forall g | barrier <= g < |all| ensures !Fits(all, g, limits) {
      assert all[g..] == log[g..] + [e];
      SizeAppend(log[g..], e);
    }
    assert all[|all|..] == [];
    KeepIs(all, barrier, |all|, limits);
  }

  // Nothing that an earlier commit evicted would fit after a later one.
  lemma EvictedStaysOut<P>(log: seq<Entry<P>>, e: Entry<P>, barrier: nat, limits: Limits)
    requires barrier <= |log|
    ensures forall g | barrier <= g < KeepFrom(log, barrier, limits) :: !Fits(log + [e], g, limits)
  {
    forall g | barrier <= g < KeepFrom(log, barrier, limits) ensures !Fits(log + [e], g, limits) {
      if Fits(log + [e], g, limits) { FitsShrinks(log, e, g, limits); }
    }
  }

  // The eviction loop of retain: drop the front until both limits hold.
  method Evict<P>(entries0: seq<Entry<P>>, bytes0: nat, floor0: nat, limits: Limits,
                  ghost all: seq<Entry<P>>, ghost barrier: nat)
    returns (entries: seq<Entry<P>>, bytes: nat, floor: nat)
    requires Numbered(all) && barrier <= floor0 <= |all|
    requires entries0 == all[floor0..] && bytes0 == Size(entries0)
    requires forall g | barrier <= g < floor0 :: !Fits(all, g, limits)
    ensures Window(entries, bytes, floor) == Retained(all, barrier, limits)
  {
    entries, bytes, floor := entries0, bytes0, floor0;
    while |entries| > limits.maxEvents || bytes > limits.maxBytes
      invariant barrier <= floor <= |all| && entries == all[floor..] && bytes == Size(entries)
      invariant forall g | barrier <= g < floor :: !Fits(all, g, limits)
      decreases |entries|
    {
      assert entries != [] && entries[0] == all[floor] && entries[1..] == all[floor + 1..];
      var evicted := entries[0];
      entries := entries[1..];
      bytes := bytes - evicted.bytes;
      floor := evicted.seqNo;
    }
    KeepIs(all, barrier, floor, limits);
  }

  // retain
  method Retain<P>(entries0: seq<Entry<P>>, bytes0: nat, floor0: nat, limits: Limits, entry: Entry<P>,
                   ghost log: seq<Entry<P>>, ghost barrier: nat)
    returns (entries: seq<Entry<P>>, bytes: nat, floor: nat)
    requires Numbered(log + [entry]) && barrier <= |log|
    requires Window(entries0, bytes0, floor0) == Retained(log, barrier, limits)
    // Evicting one event at a time gives what cutting the whole log once would give.
    ensures Window(entries, bytes, floor) == Retained(log + [entry], barrier, limits)
  {
    assert entry.seqNo == |log| + 1 by { assert (log + [entry])[|log|] == entry; }
    if entry.bytes > limits.maxBytes {
      OversizedEmpties(log, entry, barrier, limits);
      return [], 0, entry.seqNo;
    }
    SizeAppend(entries0, entry);
    EvictedStaysOut(log, entry, barrier, limits);
    assert (log + [entry])[floor0..] == log[floor0..] + [entry];
    entries, bytes, floor := Evict(entries0 + [entry], bytes0 + entry.bytes, floor0, limits, log + [entry], barrier);
  }

  // The position just after the last entry of a run, or 0.
  function LastOf<P>(log: seq<Entry<P>>, run: string): (n: nat)
    ensures n <= |log|
    ensures forall k | n <= k < |log| :: log[k].run != Some(run)
    ensures n > 0 ==> log[n - 1].run == Some(run)
  {
    if log == [] then 0
    else if log[|log| - 1].run == Some(run) then |log|
    else LastOf(log[..|log| - 1], run)
  }

  // The sequence number of the last retained event of a run.
  method LastRetained<P>(entries: seq<Entry<P>>, run: string) returns (through: Option<nat>)
    requires forall i, j | 0 <= i < j < |entries| :: entries[i].seqNo < entries[j].seqNo
    ensures through.None? ==> forall k | 0 <= k < |entries| :: entries[k].run != Some(run)
    ensures through.Some? ==>
      && (exists k :: 0 <= k < |entries| && entries[k].seqNo == through.value && entries[k].run == Some(run))
      && (forall k | 0 <= k < |entries| && entries[k].run == Some(run) :: entries[k].seqNo <= through.value)
  {
    through := None;
    for k := 0 to |entries|
      invariant through.None? ==> forall j | 0 <= j < k :: entries[j].run != Some(run)
      invariant through.Some? ==>
        && (exists j :: 0 <= j < k && entries[j].seqNo == through.value && entries[j].run == Some(run))
        && (forall j | 0 <= j < k && entries[j].run == Some(run) :: entries[j].seqNo <= through.value)
    {
      if entries[k].run == Some(run) {
        through := Some(if through.Some? then Max(through.value, entries[k].seqNo) else entries[k].seqNo);
      }
    }
  }

  // A suffix of the log shows where a run ended, if it shows the run at all.
  lemma LastInWindow<P>(log: seq<Entry<P>>, floor: nat, run: string, through: Option<nat>)
    requires Numbered(log) && floor <= |log|
    requires through.None? ==> forall k | 0 <= k < |log[floor..]| :: log[floor..][k].run != Some(run)
    requires through.Some? ==>
      && (exists k ::
            0 <= k < |log[floor..]| && log[floor..][k].seqNo == through.value && log[floor..][k].run == Some(run))
      && (forall k | 0 <= k < |log[floor..]| && log[floor..][k].run == Some(run) ::
        log[floor..][k].seqNo <= through.value)
    ensures if through.Some? then LastOf(log, run) == through.value && floor < through.value <= |log|
            else LastOf(log, run) <= floor
  {
    var last := LastOf(log, run);
    if last > floor { assert log[floor..][last - 1 - floor] == log[last - 1]; }
    if through.Some? {
      var k :| 0 <= k < |log[floor..]| && log[floor..][k].seqNo == through.value && log[floor..][k].run == Some(run);
      assert log[floor..][k] == log[floor + k];
    }
  }

  // The loop of scrub_run: drop the front up to a sequence number.
  method DropThrough<P>(entries0: seq<Entry<P>>, bytes0: nat, through: nat, ghost log: seq<Entry<P>>, ghost floor0: nat)
    returns (entries: seq<Entry<P>>, bytes: nat)
    requires Numbered(log) && floor0 <= through <= |log| && entries0 == log[floor0..] && bytes0 == Size(entries0)
    ensures entries == log[through..] && bytes == Size(entries)
  {
    entries, bytes := entries0, bytes0;
    ghost var at := floor0;
    while entries != [] && entries[0].seqNo <= through
      invariant floor0 <= at <= through && entries == log[at..] && bytes == Size(entries)
      decreases |entries|
    {
      assert entries[0] == log[at] && log[at..][1..] == log[at + 1..];
      bytes := bytes - entries[0].bytes;
      entries := entries[1..];
      at := at + 1;
    }
    assert at == through by {
      if entries != [] { assert entries[0] == log[at]; }
    }
  }

  // scrub_run
  method ScrubRun<P>(entries0: seq<Entry<P>>, bytes0: nat, floor0: nat, run: string,
                     ghost log: seq<Entry<P>>, ghost barrier: nat, ghost limits: Limits)
    returns (entries: seq<Entry<P>>, bytes: nat, floor: nat)
    requires Numbered(log) && barrier <= |log|
    requires Window(entries0, bytes0, floor0) == Retained(log, barrier, limits)
    // The run's last event becomes a barrier; the window is again the longest suffix after it.
    ensures Window(entries, bytes, floor) == Retained(log, Max(barrier, LastOf(log, run)), limits)
  {
    entries, bytes, floor := entries0, bytes0, floor0;
    var through := LastRetained(entries, run);
    LastInWindow(log, floor0, run, through);
    if through.Some? {
      entries, bytes := DropThrough(entries, bytes, through.value, log, floor0);
      floor := Max(floor, through.value);
      FitsSuffix(log, floor0, floor, limits);
      KeepIs(log, floor, floor, limits);
    } else {
      KeepIs(log, Max(barrier, LastOf(log, run)), floor0, limits);
    }
  }

  // After a scrub no event of the run can be replayed.
  lemma ScrubForgets<P>(log: seq<Entry<P>>, barrier: nat, run: string, limits: Limits)
    requires barrier <= |log|
    ensures forall e | e in Retained(log, Max(barrier, LastOf(log, run)), limits).entries :: e.run != Some(run)
  {
    var w := Retained(log, Max(barrier, LastOf(log, run)), limits);
    forall k | 0 <= k < |w.entries| ensures w.entries[k].run != Some(run) { assert w.entries[k] == log[w.floor + k]; }
  }
}
