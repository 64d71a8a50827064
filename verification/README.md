# axor-wrap: the governed node, proved

A Dafny model of the parts of axor-wrap that decide something, and proofs of what they promise.

- **The plane session** (`PlaneState`, `PlaneSession`, `PlaneRuns`, `PlaneRaising`, `PlaneSnapshots`, `PlaneReconnect`,
  `PlaneSafety`, `PlaneMeaning`).
  A node takes commands from a plane it does not trust. `PlaneState` says what each message does to a node, `PlaneSession`
  is the object that does it in place, and the other modules prove what holds over all runs: every posture is a fold over
  signed commands, a snapshot is its commands delivered live, a reconnect is not noticed, one-shots go out once, a stop
  is final, a budget only narrows. `PlaneMeaning` reads stop, pause, cap and pendings off the entries of a run's commands. Signature checking, the canonical bytes and the kernel's guard on operator
  configuration are functions of the `Host` about which only a stated contract is known.
- **The plane transport** (`PlaneTransport`, `EventStream`, `EventText`, `EventStandard`, `PlaneClient`,
  `PlaneStreams`). A flush is two atomic
  halves around its await, with appends and other flushes in between. The event stream is split into lines and parsed
  line by line; `PlaneStreams` joins it to the session, from the printed frames to the posture.
- **Gated execution** (`Toolset`, `ToolsetRuns`, `ToolsetLedger`, `ToolsetStops`, `WrappedToolset`). Agents and tools are programs that call tools, look at
  a shared world and change it; the governor is an abstract kernel. Two runs of one program, enforced and not, are compared.
- **Traces** (`Fields`, `FieldCoverage`, `Pairing`, `ValueLedger`, `Trace`, `TraceProofs`, `TraceMeaning`, `TraceBuilder`,
  `ToolsetTraces`) and their second reader, the plane bridge (`Bridge`, `BridgeMeaning`).
- **Manifests** (`Compile`, `CompileProofs`, `CompileMeaning`, `Quoting`, `GovernanceYaml`, `GovernanceLayout`,
  `ManifestCheck`, `ManifestMeaning`, `ToolManifests`, `ToolManifestMeaning`). Compilation, the governance file and a
  reader for it, the schema validator against what it means to conform, and the two builders.

`Basics`, `Json`, `Sorting`, `Decimals` and `KernelEvents` are shared vocabulary. Where the source changes an object or a
list step by step, a class or a method with a loop does so here, and its contract equates the new state with a
function of the old one; the theorems are about those functions. Because method and function share their helpers, the
`…Meaning` modules say over again what a run, a frame, a trace, an event, a compilation or a fault amounts to, in terms
of the entries, lists and texts themselves and without those helpers.

Where the code and what is said about it differ, the code is modelled:

- A replan with an empty id is not remembered and fires each time it is sent (`PlaneSafety.ReplanFiresAgainIffUnnamed`).
- A stop does not recall a pending excision (`PlaneSafety.PendingExcisionOutlivesStop`).
- A signed command whose one-shot is not an object raises out of the session. A replay ends there, so a reconnect is no
  longer transparent to a caller that goes on after the exception (`PlaneReconnect.RaisingCommandBreaksTransparency`,
  `PlaneReconnect.ReconnectIsTransparentIff`).
- A snapshot entry from the untrusted plane can raise out of the session instead of being refused: its version is an
  infinite float (`PlaneSnapshots.InfiniteVersionRaises`), or its signature cannot be checked at all
  (`PlaneSnapshots.EntryRaisesIff`, `PlaneSnapshots.SnapshotRaisesIff`).
- With a spool path, two overlapping failed flushes keep only the later one's events
  (`PlaneTransport.OverlapLosesSpooledEvents`, `PlaneTransport.EndLosesIff`).
- Section 9.2.6 of the WHATWG HTML Standard resets the event name at every blank line, takes one space off a value, and
  knows fields without a colon and fewer line ends; the client differs in each (`EventStream.NameOutlivesEmptyFrame`,
  `EventStandard.StandardIsMetIff`, `EventStandard.SameLinesIff`).
- A plain key above a list in a field pattern loses matches (`FieldCoverage.FindsAllIff`).
- A sensitive argument without taint sources is redacted but not labelled sensitive (`ValueLedger.MintAllFits`).
- The bridge and the trace document part ways at a denied intent that is no tool call (`Bridge.ConsumersAgreeIff`).
- A denial without a category stops the trace document, not the bridge (`Bridge.UncategorisedDenials`).
- A chain of local references that comes back to itself is followed without end by the validator
  (`ManifestCheck.CheckEndsIff`).

## Model

| member | source | states |
|---|---|---|
| PlaneSession.Session.ApplyDelta | axor_wrap/plane/session.py:182-191 | a delta is verified first; refused it leaves one report, trusted it is applied, and the new state is exactly the specified one |
| PlaneSession.Session.ApplyState | axor_wrap/plane/session.py:208-269 | the writes of one accepted command in their order: stale, absorbed, widening and raising commands each keep exactly what the code keeps |
| PlaneSession.Session.ApplySnapshot | axor_wrap/plane/session.py:90-180 | verify every entry, sort, account for every key, replay what is new, raise the version |
| PlaneSession.Session.TakePendingInjection | axor_wrap/plane/session.py:277-305 | the pending injection is cleared, and delivered, refused or dropped as already consumed |
| PlaneSession.Session.TakePendingExcision | axor_wrap/plane/session.py:307-340 | the same for an excision, with the guard on its targets and no test for a stop |
| PlaneSession.Session.TakePendingReplan | axor_wrap/plane/session.py:342-362 | the same for a replan; an empty id is not remembered |
| PlaneRuns.PostureIsSigned | axor_wrap/plane/session.py:90-269 | whatever is sent, flags, cap and pendings are the fold of a strictly version-increasing list of commands signed for this node by a configured operator, each where a message carried it, with the node's own drains and holds, all of them and no others, in their places |
| PlaneRuns.PlaneAloneIsSigned | axor_wrap/plane/session.py:90-269 | without local operations the posture is the fold of signed commands alone: no message forges a pause or drops a pending |
| PlaneRuns.StopAndBudgetAreSigned | axor_wrap/plane/session.py:219-235 | in that fold, stop and cap depend on the signed commands alone |
| PlaneMeaning.RunMeans | axor_wrap/plane/session.py:90-362 | over any run the node is stopped iff it was or an accepted command carried a truthy `stopped`; `paused` is the last word of a heeded command or a hold; the cap is the last one asked for that did not widen; each pending holds id, text, reason, operator, signature and targets of the last command that named it and got to it, unless drained since |
| PlaneMeaning.StopStops | axor_wrap/plane/session.py:182-220 | a new delta with a truthy `stopped`, under a good signature of a configured operator, stops the node there and then |
| PlaneMeaning.TrustedIff | axor_wrap/plane/session.py:193-206 | a delta is trusted iff its operator is configured and that key checks good over this node, version, body and time |
| PlaneMeaning.RefusedIff | axor_wrap/plane/session.py:193-206 | it is refused, in the name of its operator, iff that operator is unknown or the key checks bad, over a message that has a canonical form |
| PlaneMeaning.GoodDeltasAreTaken | axor_wrap/plane/session.py:182-217 | under a good signature a delta is never refused, and a new one is taken |
| PlaneMeaning.DeltaReports | axor_wrap/plane/session.py:182-269 | which effect a trusted delta has, told from its entries, and that exactly refusals, absorptions and widenings are reported |
| PlaneSnapshots.SnapshotAcceptedIff | axor_wrap/plane/session.py:122-166 | a snapshot is accepted iff all its entries are verified commands and each key it asserts equals what was signed last for it |
| PlaneMeaning.CommandIsRead | axor_wrap/plane/session.py:122-143 | an entry is read as a command iff version, delta, operator, timestamp and signature stand under their own names, the last three as texts |
| PlaneMeaning.EntryIsTrustedIff | axor_wrap/plane/session.py:122-146 | an entry is trusted iff it is a command and the key of its own operator checks its own signature good |
| PlaneMeaning.EntryIsMalformedIff | axor_wrap/plane/session.py:123-142 | it is refused as malformed iff it is no command and its version no infinite number |
| PlaneMeaning.SnapshotRefusals | axor_wrap/plane/session.py:119-166 | a refused snapshot leaves one report: for its first untrusted entry, or for its first key not signed last as it stands, told apart by whether it was signed at all |
| PlaneSnapshots.ForgeryMovesNothing | axor_wrap/plane/session.py:106-166 | an unsigned delta, or a snapshot with one unsigned entry or one key nobody signed last, changes nothing but at most one appended report |
| PlaneSnapshots.SnapshotIsItsDeltas | axor_wrap/plane/session.py:147-191 | from any state an accepted snapshot does what its commands do as deltas in stable version order, then raises the version |
| PlaneSnapshots.WireOrderIsIrrelevant | axor_wrap/plane/session.py:147-166 | for commands told apart by their versions, permuting entries and keys on the wire changes neither acceptance nor effect |
| PlaneSnapshots.SnapshotIsIdempotentIff | axor_wrap/plane/session.py:168-180 | the same accepted snapshot again changes nothing iff its replay raises nowhere, or at its very last command with no later snapshot version |
| PlaneSnapshots.AgainResumes | axor_wrap/plane/session.py:168-180 | after an exception the same snapshot goes on behind the command that raised |
| PlaneSnapshots.EntryRaisesIff | axor_wrap/plane/session.py:123-146 | an entry raises out of its check, instead of being refused, iff its version is infinite, or it is shaped like a command and its signature cannot be checked: no canonical form, or a known operator's key or signature unreadable |
| PlaneSnapshots.SnapshotRaisesIff | axor_wrap/plane/session.py:119-180 | a snapshot raises iff some entry does and all before it are verified, or it is accepted and one of its new commands raises |
| PlaneSnapshots.InfiniteVersionRaises | axor_wrap/plane/session.py:124-136 | an entry that is nothing but an infinite version raises on every node and leaves no report |
| PlaneRaising.RaisesIff | axor_wrap/plane/session.py:213-265 | a command raises in a posture iff that is not stopped and the cap is no number, or it is not refused as widening and a one-shot is ill-shaped |
| PlaneRaising.WellShapedIff | axor_wrap/plane/session.py:224-265 | the commands that raise in no posture are exactly the well-shaped ones |
| PlaneRaising.ReplayRaisesIff | axor_wrap/plane/session.py:168-172 | a replay raises iff one of its new commands does, on the stop and cap left by those before it; the node then stands at that command |
| PlaneReconnect.ReconnectIsTransparentIff | axor_wrap/plane/session.py:149-191 | every honest schedule of deltas, cuts, snapshots of the chain so far, drains and holds leaves the node as uninterrupted delivery does, up to a higher version, iff no command of the chain but the last raises from the node's stop and cap |
| PlaneReconnect.ReconnectIsTransparent | axor_wrap/plane/client.py:358-373 | for such a chain, the statement about one schedule |
| PlaneStreams.BrokenStreamsAreTransparent | axor_wrap/plane/client.py:290-373 | over connections of printed frames that break after any character, with local operations between the frames, an honest plane leaves the node as uninterrupted delivery of the commands that arrived, connection by connection among exactly its own operations; all have arrived if the last connection neither broke nor raised |
| PlaneReconnect.RaisingCommandBreaksTransparency | axor_wrap/plane/session.py:248-256 | a concrete signed chain with a raising command for which snapshot and live delivery differ |
| PlaneSafety.OneShotsFireOnce | axor_wrap/plane/session.py:277-362 | over any run the three channels together hand out no non-empty id twice; delivery acks are the deliveries in order; consumed ids grow by exactly the delivered ones |
| PlaneSafety.RememberedFireOnce | axor_wrap/plane/session.py:277-340 | injections and excisions hand out no id twice, the empty one included |
| PlaneSafety.InjectionGoesOutIff | axor_wrap/plane/session.py:277-305 | an injection is delivered iff it is pending, not consumed, the node not stopped and a test bench |
| PlaneSafety.InjectionAck | axor_wrap/plane/session.py:277-305 | what is acknowledged or refused of it, with its id and the reason |
| PlaneSafety.ExcisionAck | axor_wrap/plane/session.py:307-340 | a delivered excision is acknowledged with its id, targets, their provenance, operator and reason |
| PlaneSafety.ReplanGoesOutIff | axor_wrap/plane/session.py:342-362 | a replan is delivered iff it is pending, not consumed under a name, and the node not stopped |
| PlaneSafety.AdmitsIff | axor_wrap/plane/session.py:273-275 | an intent is admitted iff the node is neither paused nor stopped |
| PlaneSafety.ReplanFiresAgainIffUnnamed | axor_wrap/plane/session.py:350-360 | the same replan stored again fires again iff its id is empty |
| PlaneSafety.ExcisionsSpareOperatorConfig | axor_wrap/plane/session.py:307-340 | an excision is delivered iff it is pending, not consumed, and no target stems from operator configuration |
| PlaneSafety.StoppedIgnoresThePlane | axor_wrap/plane/session.py:213-217 | no downstream message, signed or not, changes the posture or the consumed ids of a stopped node |
| PlaneSafety.StopIsFinal | axor_wrap/plane/session.py:208-362 | over any run a stopped node stays stopped under its cap, hands out no injection and no replan, and at most the excision that was pending |
| PlaneSafety.PendingExcisionOutlivesStop | axor_wrap/plane/session.py:307-340 | whether an excision goes out does not depend on the stop |
| PlaneSafety.BudgetOnlyNarrows | axor_wrap/plane/session.py:224-235 | over any run, signed or not, a set cap stays set and never rises, and the version never falls |
| PlaneSafety.LocalCapHolds | axor_wrap/plane/session.py:85-88 | a local cap bounds the cap of every run |
| PlaneTransport.AcksAreConserved | axor_wrap/plane/client.py:121-141 | without a spool, under any interleaving of flushes and appends, appended equals waiting plus in flight plus acknowledged, that is, told by the lines of a delivered batch |
| PlaneTransport.SequentialFlushesKeepOrder | axor_wrap/plane/client.py:121-141 | in both modes, flushes that do not overlap deliver every event once and in order |
| PlaneTransport.SentBatchesTell | axor_wrap/plane/client.py:121-128 | every batch ever sent tells the durable events that were spooled and waiting when its flush began, in order, behind them the extras in order, and last the one heartbeat |
| PlaneTransport.SequenceNumbersAreDense | axor_wrap/plane/client.py:263-267 | over all flushes line i carries number i, so batches are contiguous |
| PlaneTransport.OverlapLosesSpooledEvents | axor_wrap/plane/client.py:131-141 | a run of two overlapping flushes with a spool that loses an event |
| PlaneTransport.EndLosesIff | axor_wrap/plane/client.py:131-141 | with a spool, the end of a flush loses an event iff the spool holds it and neither that flush nor the outbox, another flush or an acknowledgement does |
| PlaneTransport.SpoolLosesIff | axor_wrap/plane/client.py:121-141 | over any run with a spool, an appended event goes missing iff a flush ends that began before another one failed and spooled what neither it nor anyone else has |
| PlaneTransport.LosingFlushesAreStale | axor_wrap/plane/client.py:124-137 | a flush whose end loses an event began before a failing flush spooled that event |
| PlaneTransport.FreshFlushesLoseNothing | axor_wrap/plane/client.py:124-137 | a flush that began after the last failure to spool anything loses nothing |
| EventStream.PrintedFramesArrive | axor_wrap/plane/client.py:343-356 | for every list of frames, parsing the printed lines dispatches the ones with data, trimmed and in order |
| EventStream.StripIs | axor_wrap/plane/client.py:350-353 | stripping takes white space off either end of a value, and all of it |
| EventText.RoundTripIff | axor_wrap/plane/client.py:346-356 | over text, the frames come back unchanged iff all have data, are trimmed, and hold no line break of any kind |
| EventText.CutAnywhereDispatchesPrefix | axor_wrap/plane/client.py:343-356 | a printed stream cut after any character has dispatched a prefix |
| EventStream.CutDispatchesPrefix | axor_wrap/plane/client.py:343-356 | a stream cut at any line has dispatched a prefix |
| EventStream.CutFrameDoesNotLeak | axor_wrap/plane/client.py:343-345 | what a cut left open does not reach the next connection |
| EventStream.NameOutlivesEmptyFrame | axor_wrap/plane/client.py:354-356 | a blank line without data before it leaves the event name standing |
| EventStandard.StandardIsMetIff | axor_wrap/plane/client.py:349-356 | line by line, the client dispatches what section 9.2.6 of the WHATWG HTML Standard dispatches iff in every completed event each data line reads alike and the open name was given since the last blank line |
| EventStandard.ReadsAlikeIff | axor_wrap/plane/client.py:349-353 | a line reads alike iff it is no bare `event` or `data` and stripping its value takes off what the standard's one space does |
| EventStandard.SameLinesIff | axor_wrap/plane/client.py:346-349 | a text falls into the standard's lines iff no character ends a line for the client alone |
| PlaneClient.StreamIsARun | axor_wrap/plane/client.py:343-373 | whatever the bytes, the session sees a run of messages, cut short at most by an exception |
| PlaneClient.DeltaFrameIs | axor_wrap/plane/client.py:358-373 | a `delta` frame is read as the command with version, delta, operator, timestamp and signature of its own entries; `state` stands in for a missing delta, the empty text for a missing other |
| PlaneClient.SnapshotFrameIs | axor_wrap/plane/client.py:358-367 | a `snapshot` frame is read as the snapshot with its own version, state and commands |
| PlaneClient.OtherFramesAre | axor_wrap/plane/client.py:358-373 | frames of other names reach nothing; what is no JSON, no object or without a version raises |
| PlaneClient.Client.FlushBegin | axor_wrap/plane/client.py:124-128 | the spooled and waiting events leave the outbox into one numbered batch with the extras and a heartbeat of the node's own state; a batch's lines tell the events it is held for |
| PlaneClient.Client.FlushEnd | axor_wrap/plane/client.py:129-141 | after the await the batch is dropped, spooled, or put before what has come in since |
| PlaneClient.Client.ConsumeSse | axor_wrap/plane/client.py:343-356 | consuming the lines of a connection applies exactly the frames dispatched before the stop |
| Toolset.RunsAgree | axor_wrap/runtime.py:215-242 | the same program enforced and not: verdicts, governors, worlds and executions agree up to and including the first denial, and in everything if there is none |
| ToolsetRuns.PlayIsGated | axor_wrap/runtime.py:223-239 | over a whole run enforcement on starts exactly the admitted and allowed calls, off every admitted one |
| ToolsetLedger.RunTellsTheGovernor | axor_wrap/runtime.py:227-239 | on every run the final governor is the first one asked at each new verdict and told each new output with the decision on its own call, in the order of the log; each verdict is that governor's answer at its place |
| ToolsetLedger.CallReplies | axor_wrap/runtime.py:223-242 | a caller is handed a value iff the log has that value as the output of its very call; else the error names the unknown tool, the hold, or the kernel's reason and category |
| ToolsetLedger.ToolsGetTheirArguments | axor_wrap/runtime.py:238 | a tool that runs is given the arguments of its call |
| ToolsetRuns.RunKeepsAligned | axor_wrap/runtime.py:223-242 | on every run, with unknown tools, holds, denials, raising and re-entering tools, record i, verdict event i and the i-th verdict asked for belong to one call: its tool, its arguments, its output, and the event the kernel told last at the time |
| ToolsetRuns.HeldRunStartsNothing | axor_wrap/runtime.py:225-226 | under a hold nothing is judged, recorded or started |
| ToolsetStops.VerdictsMeetAdmission | axor_wrap/runtime.py:225-227 | on every run, nested calls and all, a verdict is only asked for in a world whose node is neither paused nor stopped |
| ToolsetStops.StopHoldsWithinRuns | axor_wrap/runtime.py:225-226 | from the moment the node is stopped, wherever in the run and however deep in nested calls, nothing is judged and nothing starts; calls under way at most return |
| ToolsetRuns.StoppedNodeStartsNothing | axor_wrap/connect.py:259-272 | a toolset gated by a stopped node starts no tool, whatever plane and agent do |
| ToolsetTraces.RunsArePaired | axor_wrap/runtime.py:227-242 | after any run of a recording toolset pairing succeeds, each record with the verdict on that very call |
| ToolsetTraces.RunsHaveTraces | axor_wrap/trace.py:379-438 | so a trace is refused only for a denial without a category |
| WrappedToolset.Wrapped.Invoke | axor_wrap/runtime.py:215-242 | the call on the object that changes in place: hold, judge, record, deny, execute, register, record the result |
| Fields.ExpandIsSound | axor_wrap/trace.py:249-268 | every match is a scalar found in the result at its concrete path, which is an instance of the pattern |
| Fields.ScalarsAre | axor_wrap/trace.py:253-254 | a scalar is a text, a number or a truth value, and nothing else |
| Fields.PathsAreDistinct | axor_wrap/trace.py:249-268 | no two matches print the same path |
| Fields.ErasingGivesThePattern | axor_wrap/trace.py:239-268 | erasing the indices of a printed path gives back the pattern, up to trailing dots |
| FieldCoverage.FindsAllIff | axor_wrap/trace.py:257-268 | every result gives up all its matches iff no plain key stands above a list; some match is found whenever there is one |
| Pairing.PairedIff | axor_wrap/trace.py:336-376 | the pairing returned is the only one whose events and records are all of them in order, with a record missing exactly at unseen denials |
| Pairing.PairingSucceedsIff | axor_wrap/trace.py:351-376 | it exists iff the counts agree: of verdicts, or of approvals |
| Pairing.PairingErrors | axor_wrap/trace.py:351-375 | which error it is otherwise, with the counts: misaligned, a record lacking, or so many without a verdict |
| Pairing.PairUp | axor_wrap/trace.py:336-376 | the loop that consumes records at approvals computes that pairing or the right error |
| ValueLedger.MintAllFits | axor_wrap/trace.py:162-233 | every value gets an entry in order, redacted iff sensitive, labelled untrusted iff tainted or read from a result and prompt-given otherwise, with its sources |
| ValueLedger.MintAllNumbers | axor_wrap/trace.py:162-169 | each gets the next number, under `v_ext_`, `v_model_` or `v_const_` as it was read, derived or given |
| ValueLedger.IdsAreUnique | axor_wrap/trace.py:168-169 | no value id is minted twice |
| ValueLedger.LineageIsSound | axor_wrap/trace.py:215-224 | a value derives from exactly the untrusted values minted strictly before it if the model derived it, and from nothing else |
| ValueLedger.LineageIsClosed | axor_wrap/trace.py:162-188 | every id in a lineage is an earlier value of the ledger |
| TraceProofs.TraceIsWellFormed | axor_wrap/trace.py:398-435 | sequence numbers are dense from 0 and the ledger is numbered with exact lineage |
| TraceProofs.BuildSucceedsIff | axor_wrap/trace.py:286-299 | a paired run becomes a trace iff every denial names its category |
| TraceProofs.EveryCallStands | axor_wrap/trace.py:404-435 | each call is an intent, a decision under the same id and a result iff it ran; every binding, driving value and produced id is a minted value of that very argument or field, with the reason and the way a driving value is missing |
| TraceMeaning.SamePlaceIff | axor_wrap/trace.py:239-246 | two patterns are taken for each other iff they differ in a leading `result.` and in the digits of indices only |
| TraceMeaning.DeclaredIff | axor_wrap/trace.py:271-280 | a field is read from a result iff an untrusted pattern of the last manifest with the tool's id expands to it, and as sensitive iff a sensitive pattern there names the same place |
| TraceMeaning.DeclaredInOrder | axor_wrap/trace.py:271-280 | the reads come pattern by pattern as declared, and match by match under each, none missing or repeated |
| TraceMeaning.DeclaredFieldsAreShown | axor_wrap/trace.py:225-280 | in a built trace every declared field of an executed call is a tainted value from that tool and path: without content and labelled if declared sensitive, with its content if not |
| TraceMeaning.ProducedFieldsAreDeclared | axor_wrap/trace.py:271-280 | and whatever a call is said to have produced is the value of such a field |
| TraceMeaning.DocumentsShowDeclaredFields | axor_wrap/trace.py:379-438 | the same of every document built from records, events and manifests |
| TraceMeaning.ArgumentsAreShown | axor_wrap/trace.py:193-223 | every argument of a call has its value, redacted iff the kernel found it sensitive, tainted iff the kernel named sources for it, and with those sources |
| TraceProofs.TaintedArgumentsReachEarlierResults | axor_wrap/trace.py:193-233 | a tainted argument derives from every untrusted field produced by an earlier call |
| TraceBuilder.Book.MintValue | axor_wrap/trace.py:162-191 | appends one entry with the next id, its content unless sensitive, and remembers it if untrusted |
| TraceBuilder.MintUntrustedFields | axor_wrap/trace.py:271-280 | mints the untrusted fields present in a result, pattern by pattern, and returns their ids |
| TraceBuilder.BuildDocument | axor_wrap/trace.py:379-438 | the loop over the pairs builds exactly the specified events and values, or the specified error |
| Bridge.TraceToKernel | axor_wrap/plane/bridge.py:236-243 | the loop translates every event in order and drops what has no meaning for the plane |
| Bridge.ToolCallsAreVerdicts | axor_wrap/plane/bridge.py:52-197 | a judged tool call becomes the TOOL_CALL with its verdict, payload and gate, nothing else does, and no denial is dropped |
| BridgeMeaning.EverythingIsEnveloped | axor_wrap/plane/bridge.py:52-56 | what is told keeps its number and names the node given, or else its own |
| BridgeMeaning.DroppedIff | axor_wrap/plane/bridge.py:52-197 | dropped are exactly the cancellations that do not mention the control plane and the plain events that are neither approvals nor about a child |
| BridgeMeaning.RefusalsAreTold | axor_wrap/plane/bridge.py:58-84 | a refusal is told with its payload and reason under the gate of its category, as a TOOL_CALL iff it is one |
| BridgeMeaning.SeverityClimbs | axor_wrap/plane/bridge.py:35-37 | severity is strictly monotone from NORMAL, at 0, to TERMINAL, and 0 for any other name |
| BridgeMeaning.TransitionsAreTold | axor_wrap/plane/bridge.py:85-100 | a level transition is a fact as severe as its new level, with both levels, its reason and the source it is put down to |
| BridgeMeaning.QuarantinesAreTold | axor_wrap/plane/bridge.py:101-112 | a quarantine is a fact as severe as RESTRICTED, put down to its source |
| BridgeMeaning.OriginsAreTold | axor_wrap/plane/bridge.py:113-126 | a taint origin is a result with the whole payload, put down to its value |
| BridgeMeaning.SuspicionsAreTold | axor_wrap/plane/bridge.py:127-135 | a suspicious intent is a denial of the anomaly gate iff the policy denied it, with tool, score and reasons |
| BridgeMeaning.SpawnsAreTold | axor_wrap/plane/bridge.py:136-149 | a spawn names child and depth, by the event's own fields before the payload's, under the telling node |
| BridgeMeaning.StaleChildrenAreTold | axor_wrap/plane/bridge.py:150-162 | a stale child is a fact as severe as CAUTIOUS, with the recorded error or the stock one |
| BridgeMeaning.ReturnsAreTold | axor_wrap/plane/bridge.py:163-177 | a completed child is a message from it, put down to its value, carrying its labels |
| BridgeMeaning.CancellationsAreTold | axor_wrap/plane/bridge.py:178-182 | a cancellation is an operator intervention iff its detail mentions the control plane |
| BridgeMeaning.ApprovalsAreTold | axor_wrap/plane/bridge.py:188-194 | an approved or rewritten call passes with its payload |
| Bridge.ConsumersAgreeIff | axor_wrap/plane/bridge.py:58-76 | the TOOL_CALLs and a built document's decisions tell the same verdicts one for one iff every denied intent is a tool call |
| Bridge.ConsumersAgreeOnGates | axor_wrap/plane/bridge.py:200-210 | then they name the same gate where both look the category up in the same table |
| Bridge.UncategorisedDenials | axor_wrap/plane/bridge.py:58-60 | a denial without a category keeps its document from being built, while the bridge tells it under a gate guessed from the reason |
| Bridge.FirstNeedleMeaning | axor_wrap/plane/bridge.py:213-233 | the guess is the category of the first needle the reason contains, or plain denial |
| BridgeMeaning.GuessesAreFirstWords | axor_wrap/plane/bridge.py:213-233 | the category guessed for a reason is that of the first of ten words it mentions in whatever case |
| Bridge.FactsAreToldApart | axor_wrap/plane/bridge.py:82-159 | a fact id tells the event's number and the kind of fact |
| Compile.ExpandItems | axor_wrap/compile.py:34-57 | the loop splices inputs and stops at the first unresolved reference |
| Compile.CompileManifests | axor_wrap/compile.py:60-112 | the loops and in-place sorts compute the specified compilation |
| Compile.WriteGovernance | axor_wrap/compile.py:158-193 | prints the compilation without inputs, or refuses the reference |
| CompileProofs.ExpansionSucceedsIff | axor_wrap/compile.py:43-57 | an allowlist resolves iff every reference in it is supplied |
| CompileProofs.ExpansionMeaning | axor_wrap/compile.py:43-57 | it then holds what its items stand for and nothing else |
| CompileProofs.NoPlaceholderIsAdmitted | axor_wrap/compile.py:35-42 | a placeholder is never an admitted destination unless an input's own value is one |
| CompileProofs.SinksAndSources | axor_wrap/compile.py:71-92 | sinks are exactly the tools whose default class or some rule is EXPORT or EXEC, untrusted and sensitive sources those that declare such fields, each list sorted |
| CompileProofs.BeforeIff | axor_wrap/compile.py:87-89 | the order of names is that of their characters, a prefix coming first |
| CompileMeaning.FieldsAndArgs | axor_wrap/compile.py:78-86 | a tool has the untrusted fields, sorted, and the driving arguments, as they come, of its last manifest that has any |
| CompileMeaning.OverridesAreLowered | axor_wrap/compile.py:90-112 | overrides stand under the lower-cased names, the last of a name, sorted |
| CompileMeaning.SinksAreHeld | axor_wrap/compile.py:97-103 | under an allowlist exactly the sinks are held, each to the texts of what the allowlist expands to, in order, on its first driving argument or `recipient` |
| CompileMeaning.RefusedIff | axor_wrap/compile.py:34-57 | compilation is refused iff the allowlist refers to an input nobody supplied, and for the first such reference |
| CompileMeaning.ExpansionIs | axor_wrap/compile.py:34-57 | the expansion is what the items stand for, one after the other, lists spliced in |
| CompileMeaning.FileIsInOrder | axor_wrap/compile.py:177-191 | the governance file lists tools and policies in order of their names |
| CompileProofs.EverySinkIsHeld | axor_wrap/compile.py:97-105 | with an allowlist every sink and only a sink carries its policy, on the argument that drives it |
| CompileProofs.CheckedArgMeaning | axor_wrap/compile.py:101-103 | that argument is the first its manifest names, or `recipient` |
| CompileProofs.CompilationIgnoresOrder | axor_wrap/compile.py:60-112 | for distinct ids the order of the manifests changes neither the configuration nor the governance file |
| CompileProofs.CompilationIsRecoverable | axor_wrap/compile.py:158-206 | reading the governance file gives back sources, sinks, driving arguments and policies, entry by entry |
| Quoting.QuotedReadsBack | axor_wrap/compile.py:203-206 | every string comes back from its JSON quotation, whatever follows it |
| Quoting.QuotedIsPrintable | axor_wrap/compile.py:203-206 | a quotation is printable ASCII and never breaks a line |
| GovernanceYaml.PrintYaml | axor_wrap/compile.py:158-200 | the printing loops produce the specified file, empty sections left out |
| GovernanceLayout.FileIsLaidOut | axor_wrap/compile.py:158-200 | the text to the letter: which list stands under which heading, with which indentation, and what is left out |
| GovernanceReadsBack.YamlReadsBack | axor_wrap/compile.py:158-206 | the printed text reads back as what was printed, for all strings |
| ManifestCheck.FindFaults | axor_wrap/manifest.py:152-203 | the recursive check appends exactly the specified faults to the shared list |
| ManifestCheck.Validate | axor_wrap/manifest.py:131-136 | no faults are reported iff the value conforms |
| ManifestCheck.NoFaultsIffConforms | axor_wrap/manifest.py:152-214 | at every value, schema and path the check finds nothing iff the value conforms |
| ManifestMeaning.FaultsAre | axor_wrap/manifest.py:152-203 | where the check ends, a fault is reported at a path iff it is one of the value there, a wrong type ending the search |
| ManifestMeaning.ObjectConformsIff | axor_wrap/manifest.py:186-199 | an object conforms iff it does as a whole, no entry is one too many, and each conforms to its property or the schema of the others |
| ManifestMeaning.NothingBesideTheListed | axor_wrap/manifest.py:196-197 | where further properties are forbidden, a conforming object has none but those listed |
| ManifestMeaning.TypesAreToldApart | axor_wrap/manifest.py:206-214 | each type name fits its own values; a boolean is no number, an unknown name fits nothing |
| ManifestMeaning.ReferencesAreFollowed | axor_wrap/manifest.py:159-169 | a schema that refers stands for the end of the chain of its references, each naming its definition behind the last slash |
| ManifestCheck.CheckEndsIff | axor_wrap/manifest.py:159-169 | the check ends on every value under every schema iff the local references are acyclic |
| ManifestCheck.ChainsEndIff | axor_wrap/manifest.py:159-168 | chains of local references all end iff the definitions can be ranked so that references go down |
| ManifestCheck.SelfReferenceNeverEnds | axor_wrap/manifest.py:159-168 | a definition that refers to itself sends the check round |
| ToolManifestProofs.BuiltManifestsConform | axor_wrap/manifest.py:55-76 | whatever was detected and guessed, the manifest built conforms to the embedded schema |
| ToolManifestMeaning.ValidManifestsSay | axor_wrap/schemas/tool-manifest.schema.json:1-76 | a valid manifest has the five required entries, no unknown ones, and each of its kind: version, class, rules and lists of texts |
| ToolManifestMeaning.BuiltManifestSays | axor_wrap/manifest.py:55-76 | entry by entry, what the manifest of a detected tool says: class or EXEC, side effects unless READ, arguments with the description added |
| ToolManifestMeaning.BuiltManifestIsRead | axor_wrap/compile.py:71-86 | compilation reads it as it was meant |
| ToolManifestProofs.HarnessIsHandedOutIff | axor_wrap/manifest.py:79-128 | an asserted role is handed out iff its class is one of the four, and then it conforms |
| ToolManifestMeaning.HarnessManifestSays | axor_wrap/manifest.py:79-128 | entry by entry, what the manifest of an asserted role says; the whole result is untrusted or sensitive where asserted |
| ToolManifestProofs.UnclassifiedToolsAreSinks | axor_wrap/manifest.py:57-58 | every built tool is a sink unless it was guessed READ or WRITE, and then it is none |

## Left out

- Toolset.Play: a run is bounded by a fuel that its result depends on; a run cut short raises. The theorems hold for every fuel, and say nothing about runs that do not end.
- Toolset.RunsAgree: tools see the world and the replies of the calls they make, not the governor; a governor that raises is not modelled.
- WrappedToolset.Wrapped.Invoke: records are named by their place in the list instead of by object identity, and the recorder's `clear` during a call is not modelled.
- ToolsetRuns.StoppedNodeStartsNothing: whole agent runs alternate with messages from the plane; messages within a run are the subject of `ToolsetStops.StopHoldsWithinRuns`. A tool that replaces the admission predicate is not modelled.
- PlaneRuns.PostureIsSigned: Ed25519 and the canonical bytes of RFC 8785 are functions of the host, with unforgeability and injectivity as hypotheses.
- PlaneSession.Session.ApplyDelta: the message's delta is a dictionary and the version an integer; what is neither is refused by the frame reader as an exception.
- PlaneSession.Session.TakePendingExcision: which targets are refused is a function of the host, with the guard's contract as a hypothesis where it matters.
- EventStandard.StandardIsMetIff: a byte order mark, the `id` and `retry` fields and the default event type are not modelled.
- PlaneState.Verify: values that are not numbers (NaN) are not modelled.
- PlaneTransport.SpoolLosesIff: events are told apart by their content; with a spool an event may be sent twice, and copies are not counted.
- PlaneClient.Client.FlushBegin: the consumed ids of a heartbeat are a set rather than a sorted list; node id, timestamps and the other fixed fields of a line are not modelled.
- PlaneClient.Client.FlushEnd: the POST, its retries and timeouts, the follow-up `/consumed` requests and the file format of the spool are not modelled; a POST is acknowledged or fails.
- PlaneClient.Client.ConsumeSse: `json.loads` is a function of the client, the decoding of bytes into text is given, and the observer of `fact` frames is not modelled.
- ValueLedger.MintAllFits: content hashes and previews are functions of the setting; `default_class` and other manifest keys play no part in a trace.
- TraceBuilder.BuildDocument: the trial, producer, digest and trace id of the document are not modelled, and enforcement is a boolean.
- Bridge.TraceToKernel: the names of degradation levels are given as text.
- Bridge.ConsumersAgreeIff: events are taken as the kernel records them, with a class of their own for denied intents and none for executed ones.
- Compile.CompileManifests: a manifest is read as one that conforms to its schema; `str` of what is no string and `str.lower` are functions of the caller.
- GovernanceReadsBack.YamlReadsBack: the wording of the two comment lines is a parameter, the reader covers the subset of YAML that is printed, and lone surrogates are not characters here.
- ManifestCheck.FindFaults: error texts are values naming the fault and its path; regular-expression search is a function of the root; recursion deeper than Python's limit is not modelled.
- ToolManifestProofs.BuiltManifestsConform: descriptions in the embedded schema are not modelled, since no keyword of the validator reads them.
- `governor_kwargs`, `runtime_config_hash`, `world_digest`, `record_tools` and `trial_of`: comprehensions and hashes without a deeper invariant.
- Tool detection and role inference, the command line, the Lab connector, the experiment lookup and the admission poll loop: heuristics and thin wrappers.
