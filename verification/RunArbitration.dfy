// One run's snapshot: stream events, approval resolutions, cancellation and the terminal
// commit, each one step under the snapshot lock, in any order the lock allows.
module RunArbitration {
  import opened Basics

  datatype Status = Running | WaitingApproval | Cancelling | Completed | Failed | Cancelled {
    predicate IsTerminal() {
      Completed? || Failed? || Cancelled?
    }
  }

  datatype StreamEvent =
    | TurnCompleted
    | TurnFailed
    | ItemCompleted(item: string)
    | ApprovalRequested(requestId: string)
    | Progress(text: string)

  datatype RunEvent = Stream(seqNo: nat, event: StreamEvent) | Finished(seqNo: nat, status: Status)

  // How the execution ended, before the terminal commit arbitrates.
  datatype Outcome = Succeeded | Ended(status: Status, code: string) {
    predicate Valid() {
      Ended? ==> status.Failed? || status.Cancelled?
    }
  }

  const STORE_FAILED := "STORE_FAILED"

  // Stream events numbered 1, 2, ...
  predicate Streaming(events: seq<RunEvent>) {
    events != [] ==>
      && Streaming(events[..|events| - 1])
      && events[|events| - 1].Stream? && events[|events| - 1].seqNo == |events|
  }

  // ... and, once the run has ended, one Finished event after them.
  predicate Ends(events: seq<RunEvent>, status: Status) {
    events != [] && Streaming(events[..|events| - 1]) && events[|events| - 1] == Finished(|events|, status)
  }

  lemma {:induction false} EventsAreNumbered(events: seq<RunEvent>, k: nat)
    requires Streaming(events) || exists status :: Ends(events, status)
    requires k < |events|
    ensures events[k].seqNo == k + 1
    ensures events[k].Finished? ==> k == |events| - 1 && Ends(events, events[k].status)
  {
    if k < |events| - 1 { EventsAreNumbered(events[..|events| - 1], k); }
  }

  class RunRecord {
    const accepted: bool
    var status: Status
    var pendingApprovals: seq<string>
    var lastSeq: nat
    var items: seq<string>
    var cancel: bool
    var error: Option<string>
    // The events given a number and handed to the session, and whether a cancel was acknowledged.
    ghost var events: seq<RunEvent>
    ghost var acknowledged: bool

    ghost predicate Valid()
      reads this
    {
      && (status.Running? ==> pendingApprovals == [])
      && (status.WaitingApproval? ==> pendingApprovals != [])
      && (status.IsTerminal() ==> pendingApprovals == [])
      // An acknowledged cancellation ends as Cancelled, or has not ended, unless the store failed.
      && (acknowledged ==> cancel && (status.Cancelling? || status.Cancelled? || error == Some(STORE_FAILED)))
      && (status.Cancelling? ==> acknowledged)
      // The run's events are 1, 2, ..., and Finished is the last one.
      && lastSeq == |events| + (if !accepted && status.IsTerminal() then 1 else 0)
      && (if accepted && status.IsTerminal() then Ends(events, status) else Streaming(events))
      && (!accepted ==> events == [])
      && (status.Completed? <==> error.None? && status.IsTerminal())
    }

    constructor (accepted: bool)
      ensures Valid() && status == Running && !cancel && !acknowledged && events == [] && this.accepted == accepted
      ensures pendingApprovals == [] && items == [] && error == None
    {
      this.accepted := accepted;
      status, pendingApprovals, lastSeq, items, cancel, error := Running, [], 0, [], false, None;
      events, acknowledged := [], false;
    }

    // publish_stream, which the executing task stops calling before it commits the outcome
    method PublishStream(event: StreamEvent)
      requires Valid() && accepted && !status.IsTerminal()
      modifies this`status, this`pendingApprovals, this`lastSeq, this`items, this`events
      ensures Valid()
      ensures event.TurnCompleted? || event.TurnFailed? || (event.ApprovalRequested? && old(status).Cancelling?) ==>
        status == old(status) && pendingApprovals == old(pendingApprovals) && events == old(events)
          && items == old(items)
      ensures !(event.TurnCompleted? || event.TurnFailed? || (event.ApprovalRequested? && old(status).Cancelling?)) ==>
        && events == old(events) + [Stream(|old(events)| + 1, event)]
        && items == old(items) + (if event.ItemCompleted? then [event.item] else [])
        && pendingApprovals == old(pendingApprovals) + (if event.ApprovalRequested? then [event.requestId] else [])
        && status == if event.ApprovalRequested? then WaitingApproval else old(status)
    {
      match event {
        case TurnCompleted => return;
        case TurnFailed => return;
        case ItemCompleted(item) => items := items + [item];
        case ApprovalRequested(requestId) =>
          if status == Cancelling { return; }
          status := WaitingApproval;
          pendingApprovals := pendingApprovals + [requestId];
        case Progress(_) =>
      }
      lastSeq := lastSeq + 1;
      assert (events + [Stream(lastSeq, event)])[..|events|] == events;
      events := events + [Stream(lastSeq, event)];
    }

    // The projection of a resolved approval in finish_response_commit.
    method ResolveApproval(requestId: string) returns (changed: bool)
      requires Valid()
      modifies this`status, this`pendingApprovals
      ensures Valid() && pendingApprovals == Other(old(pendingApprovals), requestId)
      ensures changed <==> requestId in old(pendingApprovals)
      ensures status == if changed && old(status).WaitingApproval? && pendingApprovals == [] then Running
              else old(status)
    {
      OtherFacts(pendingApprovals, requestId);
      var before := |pendingApprovals|;
      pendingApprovals := Other(pendingApprovals, requestId);
      changed := before != |pendingApprovals|;
      if changed && pendingApprovals == [] && status == WaitingApproval { status := Running; }
    }

    // request_cancel_locked: true when this call is the one that cancels
    method RequestCancel() returns (changed: bool)
      requires Valid()
      modifies this`status, this`cancel, this`acknowledged
      ensures Valid() && cancel == (old(cancel) || changed)
      ensures changed <==> !old(status).IsTerminal() && !old(status).Cancelling?
      ensures status == if changed then Cancelling else old(status)
      ensures acknowledged == (old(acknowledged) || changed)
    {
      if status.IsTerminal() || status == Cancelling { return false; }
      status, cancel, acknowledged := Cancelling, true, true;
      changed := true;
    }

    // A dropped start request raises the flag without touching the status.
    method Abandon()
      requires Valid()
      modifies this`cancel
      ensures Valid() && cancel
    {
      cancel := true;
    }

    // The terminal commit of execute_run. A run that was never accepted is cancelled by its executor;
    // `store` is the answer of the durable journal, where there is one, to the finalized snapshot.
    method Finish(outcome: Outcome, history: seq<string>, store: Option<bool>)
      requires Valid() && outcome.Valid() && !status.IsTerminal()
      requires !accepted ==> outcome.Ended? && outcome.status == Cancelled
      modifies this`status, this`pendingApprovals, this`lastSeq, this`items, this`error, this`events
      ensures Valid() && status.IsTerminal() && items == history
      // A commit that the store refuses is never a success; nor is it the cancellation it may have been.
      ensures store == Some(false) ==> status == Failed && error == Some(STORE_FAILED)
      ensures store != Some(false) && (old(status).Cancelling? || old(cancel)) ==> status == Cancelled
      ensures store != Some(false) && !old(status).Cancelling? && !old(cancel) ==>
        status == match outcome case Succeeded => Completed case Ended(s, _) => s
      ensures store != Some(false) ==>
        error == if accepted && (old(status).Cancelling? || old(cancel)) then Some("CANCELLED")
                 else match outcome case Succeeded => None case Ended(_, code) => Some(code)
      ensures events == if accepted then old(events) + [Finished(|old(events)| + 1, status)] else []
    {
      var arbitrated := if accepted && (status == Cancelling || cancel) then Ended(Cancelled, "CANCELLED") else outcome;
      match arbitrated {
        case Succeeded => status, error := Completed, None;
        case Ended(ended, code) => status, error := ended, Some(code);
      }
      items, pendingApprovals, lastSeq := history, [], lastSeq + 1;
      if store == Some(false) { status, error := Failed, Some(STORE_FAILED); }
      assert (events + [Finished(lastSeq, status)])[..|events|] == events;
      if accepted { events := events + [Finished(lastSeq, status)]; }
    }
  }

  // pending_approvals.retain(|approval| approval.request_id != request_id)
  function Other(ids: seq<string>, id: string): seq<string> {
    if ids == [] then [] else (if ids[0] != id then [ids[0]] else []) + Other(ids[1..], id)
  }

  lemma {:induction false} OtherFacts(ids: seq<string>, id: string)
    ensures |Other(ids, id)| <= |ids| && (|Other(ids, id)| == |ids| <==> id !in ids)
    ensures id !in ids ==> Other(ids, id) == ids
    ensures id !in Other(ids, id) && forall x | x != id :: x in Other(ids, id) <==> x in ids
  {
    if ids != [] { OtherFacts(ids[1..], id); }
  }
}
