// The hand-off from replay to live events: a reorder buffer that releases committed events
// in cursor order, and the worker that sends them.
module Notifier {
  import opened Basics

  function Above(received: set<SeqNo>, c: SeqNo): set<SeqNo> {
    set n | n in received && n > c
  }

  // The end of the maximal consecutive run c + 1, c + 2, ... within a set.
  function RunEnd(c: SeqNo, received: set<SeqNo>): (end: SeqNo)
    ensures c <= end
    ensures forall n | c < n <= end :: n in received
    ensures end < LAST_SEQ ==> end + 1 !in received
    decreases |Above(received, c)|
  {
    if c < LAST_SEQ && c + 1 in received then
      assert Above(received, c) == Above(received, c + 1) + {c + 1};
      RunEnd(c + 1, received)
    else c
  }

  // The cursors c + 1 .. end.
  function Consecutive(c: SeqNo, end: SeqNo): (ns: seq<SeqNo>)
    requires c <= end
    ensures |ns| == end - c && forall k | 0 <= k < |ns| :: ns[k] == c + 1 + k
  {
    seq(end - c, k requires 0 <= k < end - c => c + 1 + k)
  }

  lemma {:induction false} RunEndIs(c: SeqNo, end: SeqNo, received: set<SeqNo>)
    requires c <= end && (forall n | c < n <= end :: n in received)
    requires end < LAST_SEQ ==> end + 1 !in received
    ensures RunEnd(c, received) == end
    decreases end - c
  {
    if c < end { RunEndIs(c + 1, end, received); }
  }

  // What has been released once a set of events has arrived after an activation at c.
  function Released(c: SeqNo, received: set<SeqNo>): seq<SeqNo> {
    Consecutive(c, RunEnd(c, received))
  }

  // An arrival at or below the run changes nothing.
  lemma LateArrival(c: SeqNo, received: set<SeqNo>, n: SeqNo)
    requires n <= RunEnd(c, received)
    ensures RunEnd(c, received + {n}) == RunEnd(c, received)
    ensures Above(received + {n}, RunEnd(c, received)) == Above(received, RunEnd(c, received))
  {
    RunEndIs(c, RunEnd(c, received), received + {n});
  }

  // What a newer arrival releases is found by looking above the run alone.
  lemma NewArrival(c: SeqNo, received: set<SeqNo>, n: SeqNo)
    requires n > RunEnd(c, received)
    ensures var was := RunEnd(c, received);
            var end := RunEnd(was, Above(received, was) + {n});
            && RunEnd(c, received + {n}) == end
            && Above(received + {n}, end) == Above(received, was) + {n} - (set k | k in Consecutive(was, end))
            && Released(c, received + {n}) == Released(c, received) + Consecutive(was, end)
  {
    var was := RunEnd(c, received);
    var buffer := Above(received, was) + {n};
    var end := RunEnd(was, buffer);
    RunEndIs(c, end, received + {n});
    forall k ensures k in Consecutive(was, end) <==> was < k <= end {
      if was < k <= end { assert Consecutive(was, end)[k - was - 1] == k; }
    }
  }

  // The loop of ordered: release from the front of the buffer while the next cursor is there.
  method Drain(last: SeqNo, pending0: set<SeqNo>) returns (ready: seq<SeqNo>, pending: set<SeqNo>)
    ensures var end := RunEnd(last, pending0);
            ready == Consecutive(last, end) && pending == pending0 - (set n | n in ready)
  {
    ready, pending := [], pending0;
    var at: SeqNo := last;
    while at < LAST_SEQ && at + 1 in pending
      invariant last <= at <= LAST_SEQ && ready == Consecutive(last, at)
      invariant forall n | last < n <= at :: n in pending0
      invariant pending == pending0 - (set n | n in ready)
      decreases LAST_SEQ - at
    {
      at := at + 1;
      pending, ready := pending - {at}, ready + [at];
    }
    RunEndIs(last, at, pending0);
  }

  // One arrival: it is released with what had waited for it, kept for later, or too late.
  method TakeArrival(n: SeqNo, last0: SeqNo, pending0: set<SeqNo>, ghost c: SeqNo, ghost received: set<SeqNo>)
    returns (ready: seq<SeqNo>, last: SeqNo, pending: set<SeqNo>)
    requires last0 == RunEnd(c, received) && pending0 == Above(received, last0)
    ensures last == RunEnd(c, received + {n}) && last0 <= last && pending == Above(received + {n}, last)
    ensures ready == Consecutive(last0, last) && Released(c, received + {n}) == Released(c, received) + ready
  {
    if n <= last0 {
      LateArrival(c, received, n);
      return [], last0, pending0;
    }
    NewArrival(c, received, n);
    ready, pending := Drain(last0, pending0 + {n});
    last := last0 + |ready|;
  }

  // An event is named by its cursor.
  class NotificationOrder {
    var enabled: bool
    // The highest released cursor; the next expected one is its successor, if there is one.
    var last: SeqNo
    var pending: set<SeqNo>
    // The activation cursor, every event received since, and every event released.
    ghost var activated: SeqNo
    ghost var received: set<SeqNo>
    ghost var released: seq<SeqNo>

    // Exactly the maximal consecutive run after the activation has been released.
    ghost predicate Valid()
      reads this
    {
      && (!enabled ==> pending == {} && released == [])
      && (enabled ==>
            && last == RunEnd(activated, received)
            && released == Released(activated, received)
            && pending == Above(received, last))
    }

    constructor ()
      ensures Valid() && !enabled && last == 0
    {
      enabled, last, pending := false, 0, {};
      activated, received, released := 0, {}, [];
    }

    // activate, once, at the cursor that the subscription's replay ended with
    method Activate(current: SeqNo)
      requires Valid()
      modifies this
      ensures Valid() && enabled && released == old(released)
      ensures !old(enabled) ==> activated == last == current && received == {}
      ensures old(enabled) ==> activated == old(activated) && received == old(received)
      ensures old(enabled) ==> last == old(last) && pending == old(pending)
    {
      if enabled { return; }
      enabled, last, activated, received := true, current, current, {};
      pending := set n | n in pending && n > current;
    }

    // ordered: the events that an arrival lets go, in cursor order
    method Ordered(n: SeqNo) returns (ready: seq<SeqNo>)
      requires Valid()
      modifies this
      ensures Valid() && enabled == old(enabled) && activated == old(activated)
      ensures received == if enabled then old(received) + {n} else old(received)
      ensures enabled ==> released == Released(activated, received)
      ensures released == old(released) + ready && ready == Consecutive(old(last), old(last) + |ready|)
              && last == old(last) + |ready|
    {
      if !enabled { return []; }
      var end, rest;
      ready, end, rest := TakeArrival(n, last, pending, activated, received);
      received := received + {n};
      last, pending, released := end, rest, released + ready;
    }
  }

  // ---- The worker ----

  datatype Work = Work(seqNo: SeqNo, terminal: bool)

  predicate Increasing(ns: seq<SeqNo>) {
    |ns| > 1 ==> ns[|ns| - 2] < ns[|ns| - 1] && Increasing(ns[..|ns| - 1])
  }

  lemma {:induction false} IncreasingMeans(ns: seq<SeqNo>, i: nat, j: nat)
    requires Increasing(ns) && i < j < |ns|
    ensures ns[i] < ns[j]
  {
    if j < |ns| - 1 {
      IncreasingMeans(ns[..|ns| - 1], i, j);
    } else if i < |ns| - 2 {
      IncreasingMeans(ns[..|ns| - 1], i, |ns| - 2);
    }
  }

  class Delivery {
    const capacity: nat
    // The bounded queue; the cell that keeps only the newest event once the queue is full.
    var queue: seq<Work>
    var latest: Option<Work>
    var changed: bool
    // The worker: the highest cursor it has sent, and whether it has sent the terminal event.
    var lastSent: SeqNo
    var stopped: bool
    ghost var sent: seq<SeqNo>
    ghost var highest: SeqNo

    // Cursors are sent in increasing order, and the highest one handed over is sent, or is
    // what the queue or the cell will give the worker last.
    ghost predicate Valid()
      reads this
    {
      && Increasing(sent) && (if sent == [] then lastSent == 0 else lastSent == sent[|sent| - 1])
      && lastSent <= highest
      && (forall k | 0 <= k < |queue| :: queue[k].seqNo <= highest)
      && (latest.Some? ==> latest.value.seqNo <= highest)
      && (changed ==> latest.Some?)
      && (stopped || lastSent == highest
          || (queue != [] && queue[|queue| - 1].seqNo == highest)
          || (changed && latest.value.seqNo == highest))
    }

    constructor (capacity: nat)
      ensures Valid() && highest == 0 && sent == [] && !stopped
    {
      this.capacity := capacity;
      queue, latest, changed, lastSent, stopped, sent, highest := [], None, false, 0, false, [], 0;
    }

    // try_send, and the fallback when the queue is full
    method Enqueue(work: Work)
      requires Valid() && work.seqNo > highest
      modifies this`queue, this`latest, this`changed, this`highest
      ensures Valid() && highest == work.seqNo
      ensures queue == if !stopped && |old(queue)| < capacity then old(queue) + [work] else old(queue)
      ensures (latest, changed) ==
              if !stopped && |old(queue)| >= capacity then (Some(work), true) else (old(latest), old(changed))
    {
      highest := work.seqNo;
      if stopped { return; }
      if |queue| < capacity {
        queue := queue + [work];
      } else {
        latest, changed := Some(work), true;
      }
    }

    // What the worker takes next, unless it has stopped.
    function NextWork(): Option<Work>
      reads this
    {
      if stopped then None else if queue != [] then Some(queue[0]) else if changed then latest else None
    }

    // One turn of the worker's loop: the queue first, then a changed cell.
    method Turn() returns (line: Option<SeqNo>)
      requires Valid()
      modifies this`queue, this`changed, this`lastSent, this`stopped, this`sent
      ensures Valid()
      ensures sent == old(sent) + (if line.Some? then [line.value] else [])
      ensures match old(NextWork())
              case None => line == None && queue == old(queue) && changed == old(changed) && stopped == old(stopped)
              case Some(work) =>
                // What is taken is sent, unless a later cursor has been.
                && line == (if work.seqNo > old(lastSent) then Some(work.seqNo) else None)
                && queue == (if old(queue) != [] then old(queue)[1..] else [])
                && changed == (old(queue) != [] && old(changed))
                && stopped == (line.Some? && work.terminal)
      ensures lastSent == if line.Some? then line.value else old(lastSent)
    {
      line := None;
      if stopped { return; }
      var work;
      if queue != [] {
        work, queue := queue[0], queue[1..];
      } else if changed {
        work, changed := latest.value, false;
      } else {
        return;
      }
      if work.seqNo <= lastSent { return; }
      line := Some(work.seqNo);
      assert (sent + [work.seqNo])[..|sent|] == sent;
      sent, lastSent, stopped := sent + [work.seqNo], work.seqNo, work.terminal;
    }
  }

  // At quiescence the worker has sent the highest cursor it was given.
  lemma QuiescentIsCurrent(delivery: Delivery)
    requires delivery.Valid() && !delivery.stopped && delivery.queue == [] && !delivery.changed
    ensures delivery.lastSent == delivery.highest
  {
  }

  // However the queue and the cell take turns, no cursor is sent twice or after a later one.
  lemma SentInOrder(delivery: Delivery, i: nat, j: nat)
    requires delivery.Valid() && i < j < |delivery.sent|
    ensures delivery.sent[i] < delivery.sent[j] <= delivery.highest
  {
    IncreasingMeans(delivery.sent, i, j);
    if j < |delivery.sent| - 1 { IncreasingMeans(delivery.sent, j, |delivery.sent| - 1); }
  }

  // publish as one step: the released events go to the worker in cursor order.
  method Publish(order: NotificationOrder, delivery: Delivery, n: SeqNo, terminal: SeqNo -> bool)
    requires order.Valid() && delivery.Valid() && delivery.highest <= order.last
    modifies order, delivery`queue, delivery`latest, delivery`changed, delivery`highest
    ensures order.Valid() && delivery.Valid() && delivery.highest <= order.last
    ensures order.last > old(order.last) ==> delivery.highest == order.last
    ensures order.enabled == old(order.enabled) && order.activated == old(order.activated)
    ensures order.received == if order.enabled then old(order.received) + {n} else old(order.received)
  {
    ghost var was := order.last;
    var ready := order.Ordered(n);
    for k := 0 to |ready|
      invariant order.Valid() && delivery.Valid()
      invariant order.last == was + |ready| && ready == Consecutive(was, was + |ready|)
      invariant if k == 0 then delivery.highest <= was else delivery.highest == was + k
      invariant order.enabled == old(order.enabled) && order.activated == old(order.activated)
      invariant order.received == if order.enabled then old(order.received) + {n} else old(order.received)
    {
      delivery.Enqueue(Work(ready[k], terminal(ready[k])));
    }
  }
}
