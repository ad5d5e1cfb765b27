# Whale: verified models of the session daemon and the agent core

Whale runs agent turns for clients: a core keeps each conversation legal while a model and
its tools extend it, adapters turn the conversation into provider messages and back, and a
daemon publishes what happens to clients that may be slow, disconnected or replaying. This
project models the state machines behind those promises and proves what one side checks and
another side relies on.

`dafny verify dfyconfig.toml` checks everything.

## How it is organised

| file | what it models |
|---|---|
| `Basics.dfy` | options, results, identity text rules, maps over sequences and their laws |
| `CanonicalJson.dfy` | JSON values and the canonical form that fingerprints a response |
| `Conversation.dfy`, `Context.dfy`, `ContextReading.dfy` | conversation items, the history validator, the recent-turns policy; the validator read off the items alone |
| `ModelStep.dfy`, `ModelStepReading.dfy`, `Engine.dfy` | the model-step validator, and the same read off the events alone; a session, closing its calls, and the laws of what a step may append |
| `EngineRuns.dfy`, `SessionRuns.dfy` | the step loop as a function of its environment, every point where a run may stop, and the loop itself; whole sessions of runs, and the requests they make |
| `StreamedText.dfy`, `RunTranscripts.dfy` | the text a step streams without completing it; when a run succeeds, and what it leaves, told by its environment alone |
| `AnthropicWire.dfy`, `ChatWire.dfy` | history to Messages and to Chat Completions |
| `Responses.dfy`, `ResponsesReading.dfy`, `ResponsesDeltas.dfy`, `ResponsesItems.dfy` | the Responses stream parser against the model-step validator; a reading of the stream without a tracker; what becomes of deltas; what its values stand for |
| `Journal.dfy` | the bounded event journal as a window of an unbounded log; three components share it |
| `Interactions.dfy`, `Replay.dfy`, `ReplayHonesty.dfy`, `Convergence.dfy` | the interaction wire contract, paged replay, the client's check against the answers a record can give, and clients that fold events |
| `ResponseSteps.dfy`, `ResponseAgreement.dfy`, `ResponseOutcomes.dfy`, `ResponseEffects.dfy` | the interaction registry as a state machine, its invariants, its results, and what each step does seen from outside |
| `InteractionRecords.dfy` | the record the registry updates in place, each method tied to a step |
| `RegistryRuns.dfy` | what holds over whole runs of the registry, and clients that page meanwhile |
| `RequestLimit.dfy` | the limit on a run's requests, and a request refused below it |
| `HistoryArchive.dfy`, `DualPublication.dfy`, `Notifier.dfy` | the archive, the two session projections, live notifications |
| `Catalog.dfy`, `CatalogPruning.dfy` | listing an owner's sessions; the catalog's operations and pruning |
| `RunArbitration.dfy`, `SessionLifecycle.dfy` | cancel against terminal commit; session phases |

Where the source changes fields in place there is a class whose methods say what the new state
is as a function of the old one; the properties of those functions are lemmas. Locks become
atomic steps, and anything that may happen between two locked sections is any sequence of other
steps. Hash-map iteration order, random ids, serialized sizes, JSON printing and the answers of
durable storage are parameters, so a result holds for every choice of them.

Where the source keeps a running state (the history validator, the step validator, the stream
tracker, the table of streamed texts) a second definition reads the same answer off what came
before, without a state, and the two are proved equal for every input.

Five results say precisely when the code keeps a promise:

- A run leaves the history legal exactly when no model step put text or reasoning after a tool
  call (`EngineRuns.RunIsLegal`), and a session of any runs likewise (`SessionRuns.SessionIsLegal`).
  The step validator does not refuse such a step, and closing unanswered calls cannot repair the
  history it leaves (`EngineRuns.MessageAfterCall`); the context check before the next step then
  ends the run (`SessionRuns.MisorderedStepEndsRun`).
- `retire_run` refuses while a request of the run waits, but not while a leader is still
  delivering a response. It keeps the snapshot in agreement with the entries exactly when no
  leader of that run is at work (`ResponseAgreement.RetireAgrees`);
  `ResponseOutcomes.RetireCanDisagree` is the four-step run that breaks it, for every first
  request. The callers of `retire_run` retire completed runs only.
- `begin` counts waiting requests against the limit of 32 per run, while the snapshot it then
  publishes to also counts requests whose leader is at work. `ResponseOutcomes.BeginAdmits` is
  the exact condition, and `RequestLimit.RefusedBelowTheLimit` a run in which a request is refused
  while 31 wait.
- The client's check of a replay page accepts exactly what some record could have answered, for the
  limit asked for or a smaller one, and one kind of page more: a retention gap for a window that ends
  beyond the record's cursor (`ReplayHonesty.AcceptsTheHonest`).
- The fallback in `abort_resolved_exact` that edits the snapshot without an event can only run
  when the cursor space is exhausted (`ResponseOutcomes.AbortPublishes`).

## Model

| member | source | states |
|---|---|---|
| CanonicalJson.CanonicalDecides | crates/whale-daemon/src/interactions.rs:1761-1775 | two JSON values have the same canonical form exactly when they differ only in the order of object keys, at any depth |
| CanonicalJson.CanonicalIsSame | crates/whale-daemon/src/interactions.rs:1761-1775 | the canonical form differs from its value only in the order of object keys |
| CanonicalJson.CanonicalIdempotent | crates/whale-daemon/src/interactions.rs:1761-1775 | a canonical form is its own canonical form |
| Context.ValidateItems | crates/whale-core/src/context.rs:117-168 | the validation loop answers the first error in item order, or none; its ids, pending calls and flag are those of the declarative scan |
| Context.AcceptsIffConversational | crates/whale-core/src/context.rs:117-168 | the validator accepts exactly the lists of messages and call batches with fresh call ids in which each call has one result before anything else follows |
| ContextReading.VerdictIsFirst | crates/whale-core/src/context.rs:117-168 | the error is that of the first item with anything wrong, told by the items before it: a call without an id of its own or in a batch being answered, a result without an open call, a message while calls are open |
| ContextReading.VerdictAtEnd | crates/whale-core/src/context.rs:117-168 | a history with nothing wrong is refused exactly for the calls without a result at its end, all of them |
| Context.RecentTurns | crates/whale-core/src/context.rs:71-111 | the projection of an accepted history is an accepted suffix with exactly min(k, n) user messages, so its second validation never fails; a rejected history yields the validator's error |
| Engine.ThreadSession.CloseUnansweredToolCalls | crates/whale-core/src/session.rs:269-292 | appends one error result for each call unanswered since the run began, in call order, and nothing else |
| Engine.UnansweredIsPending | crates/whale-core/src/session.rs:269-292 | on a history the validator has not rejected, the calls the closing scan finds are the validator's pending set, each once |
| Engine.ClosingAccepts | crates/whale-core/src/session.rs:269-292 | closing makes a history accepted exactly when the validator has not already rejected it |
| Engine.ClosingAt | crates/whale-core/src/session.rs:269-292 | the result that closes a call is an error saying that its outcome is unknown |
| Engine.ClosingIsFinal | crates/whale-core/src/session.rs:269-292 | after a close nothing is unanswered, so a second close appends nothing |
| Engine.StepScan | crates/whale-core/src/engine.rs:781-855 | the items of a model step leave a legal history exactly when no message follows a call, and then the validator's pending set is the step's calls |
| EngineRuns.StreamStep | crates/whale-core/src/engine.rs:378-538 | a model step leaves in the session exactly what its events, the step validator and the first interruption make of it: the items completed so far, or the messages made of streamed text when it completes none |
| StreamedText.FallbackIsStreamed | crates/whale-core/src/engine.rs:404-538 | a step that ends well without completing an item appends, for each message whose streamed text is not empty, that text: its deltas in stream order since it was last started, in the phase that start gave it |
| StreamedText.TableIsStreamed | crates/whale-core/src/engine.rs:404-436 | the table of streamed texts holds for every message the deltas since its last start, and that start's phase |
| EngineRuns.RunStep | crates/whale-core/src/engine.rs:314-623 | one iteration appends a step's items and then one result per call in call order, up to the first interruption, and returns that interruption or the fault of the stream |
| EngineRuns.RunTurn | crates/whale-core/src/engine.rs:203-268 | the result and the history are those that the history, the input, the step limit and the environment determine, closing results included; for a legal history the new one is legal exactly when no step put a message after a call |
| EngineRuns.RunIsLegal | crates/whale-core/src/engine.rs:215-268 | wherever a run stops, the history it leaves is accepted again exactly when every step it took keeps its calls last; otherwise the validator has failed for good |
| EngineRuns.StepHistoryIsLegal | crates/whale-core/src/engine.rs:314-332 | the history that a step of a run is given is accepted exactly when every earlier step of the run keeps its calls last |
| SessionRuns.SessionIsLegal | crates/whale-core/src/engine.rs:203-268 | a session of any number of runs, however each of them ends, has a legal history exactly when no step of any run put a message after a call |
| SessionRuns.MisorderedStepEndsRun | crates/whale-core/src/engine.rs:314-332 | as the engine validates the context before every step, a step that puts a message after a call is the last one that asks the provider for anything, and the run fails with what stopped the next one |
| SessionRuns.RequestIsPaired | crates/whale-core/src/engine.rs:314-375 | what either context policy makes of the history before any step of any run of a session is accepted, and both adapters pair its calls, as long as no earlier step put a message after a call |
| SessionRuns.EveryRequestIsPaired | crates/whale-core/src/engine.rs:314-375 | with providers whose steps keep their calls last, every request of every run is paired on both wires |
| SessionRuns.WellOrderedSession | crates/whale-core/src/engine.rs:203-268 | with such providers every history of a session is legal and paired on both wires |
| EngineRuns.WellOrderedProvider | crates/whale-core/src/engine.rs:215-268 | if every step's output keeps its calls last, every run leaves a legal history, whatever stops it |
| EngineRuns.RunCallsLast | crates/whale-core/src/engine.rs:314-623 | the calls come last in all a run appends exactly when they do in each of its steps |
| EngineRuns.RunCause | crates/whale-core/src/engine.rs:270-632 | a run fails only by an interruption, a stream the validator refuses or that has no end, or the step limit while the last step still made calls; without these it succeeds with a whole step that makes no call |
| RunTranscripts.SuccessfulRun | crates/whale-core/src/engine.rs:270-632 | a run that succeeds was stopped nowhere, and leaves its input and the transcript of its steps up to the first that makes no call: the output of each, and to each call in order the outcome of that call |
| RunTranscripts.WellRunSucceeds | crates/whale-core/src/engine.rs:270-632 | conversely a run succeeds whenever nothing stops it, no stream is at fault, and a step within the limit makes no call |
| RunTranscripts.StoppedRun | crates/whale-core/src/engine.rs:270-632 | wherever a run is stopped it has appended a beginning of its input and that transcript |
| EngineRuns.MessageAfterCall | crates/whale-core/src/engine.rs:781-855 | the step validator accepts a call followed by a message, and a run of one such step leaves a history that closing does not repair |
| ModelStep.ModelStepState.Observe | crates/whale-core/src/engine.rs:781-855 | the in-place step validator answers what the event's rules say and reaches the state they describe |
| ModelStepReading.AcceptedIsFaultless | crates/whale-core/src/engine.rs:781-855 | a stream is accepted exactly when none of its events is at fault, where faults are told by the history and the events before alone |
| ModelStepReading.RefusedForItsFault | crates/whale-core/src/engine.rs:781-855 | an event after an accepted stream is refused for exactly the fault it has |
| AnthropicWire.SerializeHistory | crates/whale-adapters/src/anthropic.rs:183-343 | for every history roles alternate, no message is empty, and the messages hold the blocks of the items in order, each under its item's role; an accepted history is paired |
| AnthropicWire.ContentJoins | crates/whale-adapters/src/anthropic.rs:187-273 | the blocks of a content list are those of its parts in order: a text its text, an image (where images are sent) its data or else its location, anything else nothing |
| AnthropicWire.ItemSends | crates/whale-adapters/src/anthropic.rs:187-322 | what each kind of item sends: messages their blocks, carrying their texts in order; a call its id, name and arguments as parsed, or parsed from the raw text, or none; a result its call, its output and whether it is an error |
| AnthropicWire.SaidJoins | crates/whale-adapters/src/anthropic.rs:183-343 | the blocks of a history are those of its items, one after the other; user messages and tool results are the user's, all else the assistant's |
| AnthropicWire.PushOrMergeMessage | crates/whale-adapters/src/anthropic.rs:626-644 | blocks join the last message of the same role or start a new one |
| AnthropicWire.AcceptedIsPaired | crates/whale-adapters/src/anthropic.rs:183-343 | for every accepted history the tool uses of a message are its tail and the next message opens with exactly one answer for each |
| ChatWire.SerializeMessages | crates/whale-adapters/src/openai.rs:176-310 | after the prompt the messages carry the items of every history, one for one and in order: texts joined in order, parts in order, calls with their id, name and arguments; an accepted history gives paired exchanges |
| ChatWire.PartsJoin | crates/whale-adapters/src/openai.rs:193-222 | the parts of a user message are those of its content in order |
| Conversation.PlainTextJoins | crates/whale-adapters/src/openai.rs:228-301 | the text of a content list is its texts, one after the other |
| ChatWire.AcceptedIsPaired | crates/whale-adapters/src/openai.rs:176-310 | every call message is directly followed by one `tool` message per call, no two batches are merged and none is split |
| Responses.TraceObserved | crates/whale-core/src/engine.rs:781-855 | the step validator accepts a well-formed trace exactly when its item ids, call ids and names are fresh and nonblank, and its state is then the trace's own |
| Responses.ParseStream | crates/whale-adapters/src/responses.rs:317-404 | the stream loop emits and ends as the event-by-event rules say; every prefix the parser emits is well formed, so it is accepted exactly when fresh; at completion each output index was started once and completed once with its canonical terminal form, and nothing streamed is missing |
| ResponsesReading.ParseReads | crates/whale-adapters/src/responses.rs:224-404 | read without a tracker: the parser takes every event that is in order given those before it, emits what it says, and ends at the first that is not, or at the completed response; that completes the stream exactly when its items finish every item of the stream in order |
| ResponsesDeltas.DeltasArrive | crates/whale-adapters/src/responses.rs:338-359 | for every item the deltas emitted are the delta strings of the provider's events for it, in their order and each once, up to the event that ends the stream |
| ResponsesItems.CanonicalDescribes | crates/whale-adapters/src/responses.rs:127-210 | an output value completes exactly the item it describes: a message with its texts in order and its phase, a call, or a reasoning item with its summary lines |
| ResponsesItems.UsageReads | crates/whale-adapters/src/responses.rs:377-384 | the four counts of a response's usage are read back as written, and missing ones are 0 |
| Responses.ResponseState.Start | crates/whale-adapters/src/responses.rs:224-264 | starting an output item tracks it once, or fails on a clash of index or id |
| Responses.ResponseState.Finish | crates/whale-adapters/src/responses.rs:286-314 | finishing an item completes it once with its canonical form, or fails when the terminal snapshot disagrees |
| Journal.Retain | crates/whale-daemon/src/interactions.rs:1803-1829 | evicting one event at a time gives the longest suffix of the log after the last scrub that fits both limits, with the exact byte sum |
| Journal.Evict | crates/whale-daemon/src/session_views.rs:363-390 | the eviction loop keeps the counter exact, so no subtraction underflows, and stops at the first cut that fits |
| Journal.ScrubRun | crates/whale-daemon/src/interactions.rs:1831-1852 | the run's last event becomes the barrier and the window is again the longest suffix after it that fits |
| Journal.ScrubForgets | crates/whale-daemon/src/session_views.rs:392-412 | after a scrub no event of the run is retained |
| Journal.KeepFrom | crates/whale-daemon/src/session_management.rs:113-136 | the first cut at or after a barrier whose suffix fits both limits; no earlier one fits |
| Interactions.ValidatePendingSet | crates/whale-protocol/src/interactions.rs:1020-1043 | the loop accepts exactly the sets of valid, distinct identities with at most 32 per run, all of the required run if one is given |
| Interactions.ValidPendingAdd | crates/whale-protocol/src/interactions.rs:1020-1043 | a valid set takes one more interaction exactly when it is valid, new, and its run has room |
| Interactions.ApplyMeaning | crates/whale-protocol/src/interactions.rs:346-416 | the next event of a stream is applied exactly when a request is new with room, or a removal is pending, and it changes that identity alone |
| Convergence.ApplyKnown | crates/whale-protocol/src/interactions.rs:346-416 | a client at position k takes event j of the stream as stale, as its successor, or as a gap, according to j and k alone |
| Convergence.ClientConverges | crates/whale-protocol/src/interactions.rs:346-416 | after any mixture of duplicated, reordered, skipped and foreign envelopes a client holds the fold of the stream up to its own cursor, which only consecutive successors advance |
| Convergence.CatchUp | crates/whale-protocol/src/interactions.rs:346-416 | the snapshot at s and the events of (s, t] give the snapshot at t |
| Convergence.PendingIsLive | crates/whale-daemon/src/interactions.rs:196-231 | for every identity the log alternates Requested and Removed, and it is pending exactly when Requested came last |
| Replay.ValidateFor | crates/whale-protocol/src/interactions.rs:647-731 | the client's check with its cursor walk accepts exactly truthful gaps and contiguous pages that make progress |
| Replay.AnswerIsSlice | crates/whale-daemon/src/interactions.rs:233-278 | filtering and taking from a reachable journal is the log slice asked for, or a retention gap when the cursor is below the floor |
| Replay.AnswerIsValid | crates/whale-daemon/src/interactions.rs:233-298 | every answer that is not an error passes the client's check, and errors are exactly bad parameters and cursors ahead of the record |
| ReplayHonesty.AcceptsTheHonest | crates/whale-protocol/src/interactions.rs:647-731 | the client's check accepts a page exactly when some record of the thread could have answered it, for the limit asked for or a smaller one, or the page is a retention gap for a window beyond the record's cursor |
| RegistryRuns.RunGrows | crates/whale-daemon/src/interactions.rs:196-231 | over any steps of the registry the log is only appended to |
| RegistryRuns.PagingDelivers | crates/whale-daemon/src/interactions.rs:233-298 | a client of a reachable record that pages through a fixed window, with any steps of the registry and any scrubs between its pages, gets exactly the window's events in at most one page more than its full pages, or the gap of a page whose own cursor the floor had passed |
| RegistryRuns.SnapshotAndPages | crates/whale-daemon/src/interactions.rs:196-298 | a client that took the record's snapshot and then pages up to a later one, with any steps of the registry before and between, holds exactly the later snapshot once its pages are delivered |
| ResponseAgreement.CommitMeaning | crates/whale-daemon/src/interactions.rs:196-231 | with cursor space left an event commits exactly when it fits the pending set, and then log and snapshot advance together |
| ResponseAgreement.StepKeeps | crates/whale-daemon/src/interactions.rs:479-1027 | every step keeps entries, continuations, leaders, log and history consistent, and keeps the agreement when no run is retired under a leader |
| ResponseAgreement.RunAgrees | crates/whale-daemon/src/interactions.rs:479-1027 | over every sequence of steps the snapshot's pending identities are exactly the requests that wait or whose leader is at work, provided no run is retired under a leader |
| ResponseAgreement.RetireAgrees | crates/whale-daemon/src/interactions.rs:991-1027 | retiring a run keeps the agreement exactly when no leader of the run is at work |
| ResponseAgreement.RemovalCommits | crates/whale-daemon/src/interactions.rs:949-989 | the removal of an undecided request commits exactly while cursor space is left |
| ResponseOutcomes.OutcomesCoincide | crates/whale-daemon/src/interactions.rs:1497-1562 | a leader's success, what its followers read, the value its continuation returns (the leader's own) and its `resolved` removal in the log happen together |
| ResponseOutcomes.NothingElseResolves | crates/whale-daemon/src/interactions.rs:567-579 | a continuation returns a value only for a leader, and every `resolved` removal in the log belongs to a leader that succeeded |
| ResponseOutcomes.ReleaseSettles | crates/whale-daemon/src/interactions.rs:1497-1531 | releasing a leader always signals it, and disturbs no outcome already signalled |
| ResponseEffects.ReleaseDelivers | crates/whale-daemon/src/interactions.rs:1497-1531 | releasing a leader succeeds exactly when somebody waits for the answer, the entry is still the leader's and its removal can be published; then the continuation returns the leader's own response and the one new event removes the request as resolved; otherwise the leader fails, its entry goes and the removal names the cause |
| ResponseEffects.StagedFacts | crates/whale-daemon/src/interactions.rs:1443-1475 | staging a leader hands its response to the waiting continuation, to be acknowledged later, and touches nothing else |
| ResponseEffects.AnswerArrives | crates/whale-daemon/src/interactions.rs:479-580 | register, begin, respond, release: for every first request the response is returned, and the log says asked and resolved |
| ResponseOutcomes.AbortSettles | crates/whale-daemon/src/interactions.rs:1477-1495 | aborting or dropping a leader signals a failure, and disturbs no outcome already signalled |
| ResponseEffects.AbortWithdraws | crates/whale-daemon/src/interactions.rs:1477-1495 | aborting a leader fails it in every stage: a request still its own leaves the table with an event naming the cause, and its continuation gets a cancellation or a failed acknowledgement |
| RegistryRuns.OutcomeNeverChanges | crates/whale-daemon/src/interactions.rs:1556-1588 | once a leader has signalled, no sequence of steps changes its outcome |
| ResponseOutcomes.AbortPublishes | crates/whale-daemon/src/interactions.rs:949-989 | the fallback that edits the snapshot without an event is unreachable while cursor space is left |
| ResponseOutcomes.SecondResponse | crates/whale-daemon/src/interactions.rs:618-680 | a second response follows the leader exactly when it equals the leader's up to key order, and conflicts otherwise; it changes nothing |
| ResponseEffects.RespondDecides | crates/whale-daemon/src/interactions.rs:656-737 | a response leads exactly when its request still waits under its generation and somebody waits for the answer; without anybody waiting the request is removed; every other answer changes nothing and has its exact cause |
| RegistryRuns.WinnerLasts | crates/whale-daemon/src/interactions.rs:618-722 | through any sequence of steps the entry of a winning response stays, unless its leader fails or its run retires |
| ResponseOutcomes.LogAlternates | crates/whale-daemon/src/interactions.rs:196-231 | the record's log alternates for each identity, and ends with Requested exactly for the undecided ones |
| RegistryRuns.IdsStayUnique | crates/whale-daemon/src/interactions.rs:479-580 | in every reachable registry a request id names at most one entry of the session, whatever its run |
| ResponseOutcomes.BeginAdmits | crates/whale-daemon/src/interactions.rs:479-550 | a request is admitted exactly when begin does not refuse it and the snapshot, which also counts leaders at work, has fewer than 32 of its run |
| ResponseEffects.BeginAsks | crates/whale-daemon/src/interactions.rs:479-580 | begin admits a request under exactly its conditions, in every record; it then waits under the next generation with a continuation of its own and is announced by the one new event, and a refusal changes at most the generation |
| RequestLimit.RefusedBelowTheLimit | crates/whale-daemon/src/interactions.rs:479-550 | after 32 requests of any run and one answer 31 wait, and a further request passes the checks of begin and is refused |
| ResponseOutcomes.RetiredUnderLeader | crates/whale-daemon/src/interactions.rs:991-1027 | a run retired under a leader leaves its request in the snapshot, where it can never be asked again |
| ResponseOutcomes.RetireCanDisagree | crates/whale-daemon/src/interactions.rs:991-1027 | register, begin, respond, retire: for every first request these four steps break the agreement |
| InteractionRecords.InteractionRecord.CommitEvent | crates/whale-daemon/src/interactions.rs:196-231 | the record's commit is the step on its stream, its journal stays the longest fitting suffix, and a failed commit changes nothing |
| InteractionRecords.InteractionRecord.Subscribe | crates/whale-daemon/src/interactions.rs:427-442 | every answer of a reachable record to a client of its thread passes the client's check |
| InteractionRecords.InteractionRecord.BeginRequest | crates/whale-daemon/src/interactions.rs:479-580 | begin on the record is the registry's step, with the same refusals in the same order; the journal stays the longest suffix after the last scrub |
| InteractionRecords.InteractionRecord.CommitResponse | crates/whale-daemon/src/interactions.rs:656-737 | the second locked section makes the first response the leader, and tells every other one to follow, conflict or give up; the journal stays the longest suffix after the last scrub |
| InteractionRecords.InteractionRecord.ReleaseResponse | crates/whale-daemon/src/interactions.rs:1497-1531 | release is stage, liveness check, publish and signal, with an abort on each failure; the journal stays the longest suffix after the last scrub |
| InteractionRecords.InteractionRecord.ClearRun | crates/whale-daemon/src/interactions.rs:782-817 | in whatever order the table gives them, exactly the run's waiting requests are removed, each once, and nothing is scrubbed |
| ResponseEffects.ClearWithdraws | crates/whale-daemon/src/interactions.rs:878-912 | a request is cleared exactly while it waits under the generation given, with an event that names the cause, and its continuation is cancelled |
| ResponseEffects.ClearAllPublishes | crates/whale-daemon/src/interactions.rs:782-817 | clearing several waiting requests publishes the removal of each, in that order |
| InteractionRecords.InteractionRecord.RetireRun | crates/whale-daemon/src/interactions.rs:991-1027 | retirement happens exactly for a registered run with nothing waiting; it scrubs up to the run's last event and no further, and leaves no entry and no replayable event of it; a run that is not registered counts as retired exactly when nothing of it is left |
| InteractionRecords.ScrubbedByRun | crates/whale-daemon/src/interactions.rs:1831-1852 | a journal without entries labelled with a run holds no event of that run |
| ResponseEffects.RetirementStep | crates/whale-daemon/src/interactions.rs:991-1027 | retiring a run takes its entries away and nothing else |
| InteractionRecords.RecordIsMoment | crates/whale-daemon/src/interactions.rs:233-278 | what a reachable record offers a paging client is its log after its floor |
| HistoryArchives.HistoryArchive.Append | crates/whale-daemon/src/session_history.rs:90-141 | appending keeps the longest suffix within both limits, the exact byte sum, end minus floor items and unique ids, and fails exactly on a blank id or one still held, with the items before it appended |
| HistoryArchives.HistoryArchive.PrepareAppend | crates/whale-daemon/src/session_history.rs:81-88 | a prepared append works on a copy and leaves the archive alone |
| HistoryArchives.AppendSucceeds | crates/whale-daemon/src/session_history.rs:90-141 | items are appended exactly when each has an id that is not blank and not held by the archive as it is when the item comes; the log then has them at its end |
| HistoryArchives.AppendTwice | crates/whale-daemon/src/session_history.rs:90-141 | appending xs and then ys is appending xs and ys together, failures included |
| HistoryArchives.AppendedLog | crates/whale-daemon/src/session_history.rs:90-141 | a successful append extends the history by exactly its items |
| HistoryArchives.HistoryArchive.Page | crates/whale-daemon/src/session_history.rs:151-253 | the page opens at the newest items, before an anchor of the stream, or where an authentic cursor left off, and grows down until the floor, the limit or the page size stops it; each error has its exact cause |
| HistoryArchives.OpeningMeans | crates/whale-daemon/src/session_history.rs:151-207 | a page opens at the newest items, before an anchor of the stream, or where an authentic cursor of the stream left off; a foreign stream, a foreign thread and a window beyond the end have each their error |
| HistoryArchives.FloorRises | crates/whale-daemon/src/session_history.rs:90-141 | an append never lowers the floor |
| HistoryArchives.ServedWalkGathers | crates/whale-daemon/src/session_history.rs:151-288 | a client that follows its cursors, with any appends between its calls, has read exactly the tail of its window, and everything from the floor once there is no more; each page goes further down but an empty last one, so there are at most one more pages than items |
| HistoryArchives.NextCallFails | crates/whale-daemon/src/session_history.rs:151-288 | its next call fails only because the floor has passed its cursor or one item does not fit a page |
| DualPublication.Session.PublishRun | crates/whale-daemon/src/session_management.rs:946-1053 | a run event is added to both logs, its run registered and its items appended to a copy of the archive with the same parameters, exactly when all three accept it; otherwise nothing changes; so the first log stays the run events of the second, and the archive the initial items and every finished run's |
| DualPublication.Session.ReplaceMetadata | crates/whale-daemon/src/session_management.rs:1065-1144 | the answer for every case in the order the refusals are checked; success changes the second projection by one metadata event, and nothing else changes anything |
| DualPublication.Session.BeginClosing | crates/whale-daemon/src/session_management.rs:1180-1218 | succeeds exactly when the session is not open any more or its projection takes the Closing event, by which it leaves Open |
| DualPublication.Session.CompleteClosed | crates/whale-daemon/src/session_management.rs:1220-1287 | a closing session becomes Closed exactly when its projection takes the event and the store agrees; an open one never does |
| DualPublication.Session.RetireRun | crates/whale-daemon/src/session_management.rs:1146-1178 | both journals forget a finished run and nothing later than its last event, or neither changes; the views stay |
| DualPublication.RetainedIsLabelled | crates/whale-daemon/src/session_views.rs:392-412 | a window without entries labelled with a run holds no event of that run |
| DualPublication.TakenAndEntered | crates/whale-daemon/src/session_management.rs:946-1053 | when a projection takes an event, a changed run only while it is the active one; each event is entered with the next number, its size and its run |
| DualPublication.ClosedIsFinal | crates/whale-daemon/src/session_management.rs:1220-1287 | after Closed the log has no metadata or lifecycle event |
| Notifier.NotificationOrder.Ordered | crates/whale-daemon/src/session_management.rs:328-349 | what has been released is always the maximal consecutive run after the activation cursor among the events received |
| Notifier.NotificationOrder.Activate | crates/whale-daemon/src/session_management.rs:318-326 | the first activation fixes the cursor and later ones change nothing |
| Notifier.RunEnd | crates/whale-daemon/src/session_management.rs:328-349 | the end of the maximal consecutive run in a set of cursors |
| Notifier.NewArrival | crates/whale-daemon/src/session_management.rs:328-349 | a new arrival releases exactly the difference of two maximal runs, found from the buffer alone |
| Notifier.Drain | crates/whale-daemon/src/session_management.rs:341-348 | the release loop takes the maximal consecutive run off the front of the buffer |
| Notifier.Delivery.Enqueue | crates/whale-daemon/src/session_management.rs:351-363 | an event joins the queue while it has room, and otherwise replaces the newest-event cell; the highest cursor handed over is never lost |
| Notifier.Delivery.Turn | crates/whale-daemon/src/session_management.rs:1571-1616 | a turn takes the front of the queue, or else the changed cell, and sends it unless a later cursor has been sent; cursors are sent in increasing order |
| Notifier.QuiescentIsCurrent | crates/whale-daemon/src/session_management.rs:1571-1616 | when queue and cell are drained the highest cursor handed over has been sent |
| Notifier.SentInOrder | crates/whale-daemon/src/session_management.rs:1571-1616 | however the queue and the cell take turns, cursors are sent in strictly increasing order, none of them twice |
| Catalog.ListSessions | crates/whale-daemon/src/session_management.rs:787-915 | a page is the longest run of candidates within the limit and the page size, and carries a cursor exactly when more remain |
| CatalogPruning.OperationsEvolve | crates/whale-daemon/src/session_management.rs:534-724 | over any additions, closings and prunings the catalog only grows while its generation stays the same |
| CatalogPruning.ServedWalkLists | crates/whale-daemon/src/session_management.rs:787-915 | a client whose cursors are honoured, with any operations on the catalog between its pages, lists the sessions its first page met in ordinal order without repeats, and runs out exactly when it has all of them |
| Catalog.RangeAfter | crates/whale-daemon/src/session_management.rs:833-851 | what a cursor still has to list is the first page's catalog after what was listed |
| CatalogPruning.CursorHonoured | crates/whale-daemon/src/session_management.rs:833-851 | a listing cursor is honoured exactly as long as nothing has been pruned since it was given |
| CatalogPruning.OwnerCatalog.PruneOwner | crates/whale-daemon/src/session_management.rs:534-622 | pruning removes the chosen tombstones and nothing else, advances the generation once per removal, and remembers the newest pruned ids |
| CatalogPruning.PruneIsMinimal | crates/whale-daemon/src/session_management.rs:534-597 | the chosen tombstones are the oldest closed and unprotected ones, as many as leave nothing expired and both limits kept (or nothing to take), and no fewer; an open or protected session is never among them |
| CatalogPruning.PruneEffects | crates/whale-daemon/src/session_management.rs:534-622 | exactly the chosen entries go, the others keep their order, the generation advances by their number, and the newest pruned ids are remembered up to the bound |
| RunArbitration.RunRecord.PublishStream | crates/whale-daemon/src/server.rs:2202-2243 | each published stream event takes the next number; an approval asked for while cancelling is dropped |
| RunArbitration.RunRecord.ResolveApproval | crates/whale-daemon/src/interactions.rs:1345-1362 | a resolved approval leaves the list, and the last one returns a waiting run to Running |
| RunArbitration.RunRecord.RequestCancel | crates/whale-daemon/src/server.rs:1570-1588 | exactly one request moves a live run to Cancelling, and a terminal status never changes |
| RunArbitration.RunRecord.Finish | crates/whale-daemon/src/server.rs:2071-2136 | an acknowledged cancellation ends as Cancelled whatever the execution returned, a run that was never accepted as Cancelled too, and a commit that the store refuses as Failed; the error says which; Finished is the last event |
| RunArbitration.EventsAreNumbered | crates/whale-daemon/src/server.rs:2071-2243 | the events of a run are numbered from 1, and Finished comes last and once |
| SessionLifecycles.SessionLifecycle.GuardOpen | crates/whale-daemon/src/session_lifecycle.rs:71-87 | the guard opens exactly for the owner of an open session, who is then not disconnected |
| SessionLifecycles.SessionLifecycle.MarkClosing | crates/whale-daemon/src/session_lifecycle.rs:125-140 | a session in preparation is marked, an open one starts closing with a fresh completion, and others stay; exactly the closer of an open session is first, and every closer gets the session's completion |
| SessionLifecycles.SessionLifecycle.BeginDisconnect | crates/whale-daemon/src/session_lifecycle.rs:141-153 | every session of the owner is marked by a close, those in preparation included, no other is touched, and the owner has no open session from then on; the answer tells for each whether this close is the first and what to wait for |
| SessionLifecycles.SessionLifecycle.BeginClose | crates/whale-daemon/src/session_lifecycle.rs:111-124 | only the owner's close marks the session, no other session changes, and the answer says who is first and what to wait for |
| SessionLifecycles.SessionLifecycle.Publish | crates/whale-daemon/src/session_lifecycle.rs:88-110 | a session opens exactly for a connected owner and an unused id |
| SessionLifecycles.SessionLifecycle.PublishPrepared | crates/whale-daemon/src/session_lifecycle.rs:216-249 | a prepared session opens exactly when its owner is connected and nobody asked to close it meanwhile |
| SessionLifecycles.SessionLifecycle.FailPreparation | crates/whale-daemon/src/session_lifecycle.rs:211-215 | a preparation that fails closes its own session and no other, and tells whoever waits |
| SessionLifecycles.SessionLifecycle.DropPreparation | crates/whale-daemon/src/session_lifecycle.rs:251-259 | an unfinished preparation that is dropped closes its own session and no other, and wakes whoever waits; a finished one changes nothing |
| SessionLifecycles.WaitsApart | crates/whale-daemon/src/session_lifecycle.rs:125-140 | closers of different sessions never wait for the same completion |

## Left out

- Transport, SSE byte parsing, HTTP, JSON-RPC dispatch, provider URLs and credentials.
- The Anthropic and Chat stream parsers, prompt-caching marks, sampling options and tool definitions in requests.
- JSON Schema validation: whether a request is well formed is one flag of it, and whether a response fits its schema decides only if the second section of `commit_response` is reached.
- HMAC and digests: a response's digest is its canonical value, and list and history cursors are authenticated records.
- JSON numbers are kept as their literals; object field order carries no meaning.
- Timestamps of events: an event's serialized size is a function of the envelope, which its cursor makes unique in its stream.
- The registry's map of records and its ownership checks: the model is one record, found.
- A response commit is an entry of a table in the record, not an object of its own. Sends on channels are part of the step that makes them.
- The interaction and V1 session notifiers, whose queues and retries are transport.
- `session_views` and `session_management` wire types are not part of this model: how a view absorbs an event is an arbitrary partial function, and the checks on those results are not stated. `lifecycle_at` is left out.
- Durable journals: finalizing and recovering a run. Where a durable journal can refuse, its answer is a parameter.
- Run retention candidates and their timers, the order in which the three records retire one run, and the tool coordinator's concurrency: a batch is answered in call order.
- The cancellation checks inside context policies, the usage overflow check and the session's size limits are points where a run may stop.
- Counters other than interaction and session cursors (catalog ordinals and generations, archive indexes and byte sums) have no upper bound.
- EngineRuns.RunTurn: the run's input holds messages only; calls or results in the input are not considered.
- EngineRuns.StreamStep: the order of the messages made of streamed text is a parameter that may also leave ids out or repeat them; the source takes it from a hash map.
- RunArbitration.RunRecord.Finish: a durable journal that accepts the commit keeps the run's snapshot and history as they are.
- DualPublication.Session.PublishRun: the publication lane makes a publication one step, so the check that a source has not moved never fails in the model.
- Notifier.Publish: releasing events and queueing them are one step. `publish_confirmed`, which waits for room, is left out.
- CatalogPruning.OwnerCatalog.PruneOwner: byte totals do not saturate.
