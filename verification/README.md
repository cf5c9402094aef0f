# Validator migration: a verified model

ValidatorShift moves a validator's staked identity from a source server to a target
server. A hub runs a nine-step protocol; an agent on each server executes the steps and
reports; the agents' sealed payloads travel through the hub unread; dashboards watch.
This project models that protocol and the sequential kernels it rests on, and proves what
holds in every run.

`dafny verify dfyconfig.toml` checks everything.

## How the files fit together

| file | what it models |
|---|---|
| `Protocol.dfy` | states, roles, the step table and the rollback table |
| `OrchestratorSpec.dfy`, `OrchestratorRuns.dfy`, `OrchestratorLaws.dfy` | one orchestrator call as a function, its invariant, a reference automaton for traces, theorems over all call sequences; each event of a run told from the calls before it, without a field |
| `Orchestrator.dfy` | the `MigrationOrchestrator` class, proved to compute that function |
| `HubGlue.dfy`, `Rooms.dfy`, `Handler.dfy`, `Sessions.dfy`, `HubLaws.dfy` | events to messages, broadcasts and row writes; sockets and rooms; an agent's and a page's connection; the `SessionManager` class; what every message comes to, outright, and that the composed system's hub is this one |
| `Envelope.dfy`, `PayloadQueue.dfy`, `Base58.dfy`, `EnvelopeLaws.dfy` | base64 framing, envelopes, the transfers of steps 4 and 5; the payload queue; base58; the formats on the wire |
| `QuietGate.dfy`, `VotingCheck.dfy` | the tests of one look at the cluster's validator list, the anti-dual-identity gate's and step 8's, and exactly what they let pass |
| `System.dfy` | hub, four FIFO channels and two agents as one transition system |
| `Agent.dfy`, `AgentRuns.dfy` | the agent's message handlers and step handlers with their waiting loops, in imperative form, begun from any state of the agent and with the hub, the peer and the connections moving at every wait; whatever they do, all of it is a run of the composed system, so its theorems hold of the process's own server |
| `SystemInv.dfy`, `SystemSteps.dfy`, `SystemBodies.dfy` | the inductive invariant of the composed system and its preservation by every action |
| `SystemTheorems.dfy`, `SystemWitness.dfy` | what the invariant means; runs that show exactly where the guarantees end |
| `Dashboard.dfy`, `DashboardLaws.dfy` | the store's reducers, the snapshot, late-join agreement; every step's status told from the events |
| `Redact.dfy`, `RedactLaws.dfy`, `RateLimit.dfy` | the layered redactor and what it does to a text with a secret in it; the fixed-window connection limiter |
| `SuiteExists.dfy` | a configuration that meets every assumption made on library code |

In the composed system every outcome the program does not decide is a parameter of an
action: whether a command, prompt or poll succeeds, whether the effect of a failed command
happened all the same, what a file holds, the nonces, the clocks, how much of a channel
survives a lost connection, when a process exits. A run is any sequence of enabled actions
from `create`. Library code (the cipher, SHA-256, JSON, the public half of a key) is a
record of functions; the only assumptions on it are that opening inverts sealing, that
parsing inverts printing and that a sealed text is not empty (`Envelope.Sound`); such
functions exist (`SuiteExists.ValidConfigExists`).

## What the proofs turned up

- **Single identity ends at step 6.** `README.md` of the program says that only one server
  is ever voting. A rollback never takes the staked identity away from the target, and it
  restores the source's. `DualIdentityExactly`: both validators can end up on the staked
  identity after a rollback begun at step k exactly when k is 6, 7, 8 or 9. The comment at
  packages/hub/src/orchestrator/state-machine.ts:267-269 calls an automated rollback unsafe
  once the target may hold the key; an abort or a step failure starts one there nonetheless.
- **The key can end up on neither server in exactly two ways** (`KeyGoneExactly`): a rollback
  begun at step 9, since step 9 wipes the source's copy and the rollback wipes the target's;
  and an exit of the target's agent after the source's wipe, since its cleanup hook wipes the
  received key. docs/QUICKSTART.md line 85 promises the key in one place until the migration
  is verified; `KeyConservation` proves that much for every run whose target agent stays up.
- **A source that disconnects at step 1 passes through ROLLBACK with no rollback step**:
  the comment on `shouldRollback` says step 1 needs no rollback, but `onAgentDisconnected`
  asks only whether the step is below 5 (`RollbackBeginsExactly`).
- **docs/SECURITY.md line 50 says that losing either agent during MIGRATING rolls back.** In
  the code only a source lost before step 5 does; a target lost from step 5 on raises an
  alert, and every other disconnect is only recorded. The model follows the code.
- **A dashboard that joins a FAILED session sees no steps**, and agrees with one that was
  connected all along exactly when no step had been dispatched (`FailedJoinExactly`); one
  that joins a COMPLETE session lacks the summary (`CompleteJoinLacksSummary`).
- **The connection limit is 59 per 60 000 ms, not 30 per minute**: two windows can meet
  (`AtMost59InAnyInterval`, reached by `FiftyNineIsReached`). An interval keeps to 30 exactly
  when no counting window opens inside it, or the admissions left in the old window and those
  of the new one come to 30 or fewer, a sum of the positions of the two openings
  (`AnyIntervalKeepsToThirtyExactly`).
- **The anti-dual-identity gate passes sources it has not seen quiet.** Seen quiet means that
  the cluster's list is there and every entry it has for the source is delinquent. The gate
  never stops such a source; it passes another exactly when the answer has no list at all, or
  a delinquent entry for the source comes before one that is not (`GatePassesUnseenExactly`,
  with both inputs in `UnseenSourcesPass`). An answer without a list does end in an
  activation, in some run (`ActivatesExactly`). What every activation has behind it is a poll
  that passed the test for the public half of the staked key (`ActivationIsGuarded`).
- **Step 8 looks at the staked identity, not at this server.** The source's key is wiped on
  one look at the cluster's list in which the first entry for the staked key's public half is
  not delinquent and has voted; which server votes with it is not looked at. That look is
  behind every wipe (`WipeOnlyAfterTakeover`) and any such look is behind some wipe
  (`WipesExactly`). It takes a key for voting that was not seen to exactly when an entry that
  votes comes before one that does not (`CheckErrsExactly`).
- **A finished session is forgotten**: the next message for it finds a fresh orchestrator in
  IDLE, whatever the row says (`SessionManager.Found`). A single message then rewrites the
  row exactly if it is a dashboard's abort and the row is not FAILED, so an abort turns a
  COMPLETE row FAILED (`ForgottenRowExactly`); two hellos put it back to PAIRING
  (`ForgottenRowPairsAgain`). The theorems over runs speak of one orchestrator from `create`.
- **The dashboards are shown the first pair of authentication strings only**: whatever an
  agent announces after both have announced is compared with nothing
  (`OnlyFirstPairIsShown`).

## Model

| member | source | states |
|---|---|---|
| `Protocol.LookupSteps` | packages/hub/src/orchestrator/steps.ts:53-75 | a lookup succeeds exactly for 1..9 (the next step exactly for 0..8), returns the entry with that number, and its executor is the target for 6, 7, 8 and the source otherwise |
| `OrchestratorSpec.FailedChecks` | packages/hub/src/orchestrator/state-machine.ts:311-312 | the filter is empty exactly when every check passed |
| `OrchestratorSpec.ApplyKeepsCore` | packages/hub/src/orchestrator/state-machine.ts:187-450 | every public method keeps the per-state invariant: both connected in PAIRING and PREFLIGHT, step in 1..9 and one ahead of the completed count in MIGRATING, pending acks only from one agent and only for the bilateral step in progress, never ROLLBACK between calls |
| `OrchestratorSpec.StepCompleteKeepsCore` | packages/hub/src/orchestrator/state-machine.ts:363-393 | the same for step acknowledgements, first and second ack of a bilateral step included |
| `OrchestratorSpec.ObserveApply` | packages/hub/src/orchestrator/state-machine.ts:187-468 | what a call emits is accepted by an automaton that knows only the state diagram and the event order, and leaves it in agreement with the fields |
| `OrchestratorSpec.ObserveRollBack` | packages/hub/src/orchestrator/state-machine.ts:425-436 | a rollback is accepted as a whole: enter, the table in order, FAILED, session failed |
| `OrchestratorSpec.RunKeepsInv` | packages/hub/src/orchestrator/state-machine.ts:136-476 | both hold after every sequence of public calls |
| `OrchestratorRuns.PreflightNamesFailures` | packages/hub/src/orchestrator/state-machine.ts:311-318 | the reason of a failed preflight lists exactly the failed checks, the source's before the target's, in order |
| `OrchestratorRuns.TraceShape` | packages/hub/src/orchestrator/state-machine.ts:333-450 | dispatches and completions alternate 1, 1, 2, 2, ...; rollback events are none or the whole table, contiguous at the end; the session is over exactly when the last event closes it and no other event does |
| `OrchestratorRuns.RollbacksAreContiguous` | packages/hub/src/orchestrator/rollback.ts:26-71 | over every run the rollback steps issued are none, or exactly the four in order as the last seven events say |
| `OrchestratorRuns.RollbackBeginsExactly` | packages/hub/src/orchestrator/state-machine.ts:203-276 | ROLLBACK is entered exactly by an abort or a failure of the current step from step 2 on and by losing the source before step 5; the whole table is issued, except that at step 1 nothing is |
| `OrchestratorRuns.TerminalIsQuiet` | packages/hub/src/orchestrator/state-machine.ts:203-204 | after COMPLETE or FAILED no call emits anything or changes the state |
| `OrchestratorRuns.RedeliveryIsIgnored` | packages/hub/src/orchestrator/state-machine.ts:363-376 | an accepted ack delivered again, anywhere later in any run, changes neither fields nor trace of anything that follows |
| `OrchestratorRuns.SwappedAcksAgree` | packages/hub/src/orchestrator/state-machine.ts:367-376 | the two acks of a bilateral step in either order, whatever happens between them, give the same trace, and the same fields exactly if the session did not fail in between |
| `OrchestratorRuns.AckSpendsOne` | packages/hub/src/orchestrator/state-machine.ts:363-393 | every counted ack lowers the number of acks still needed by exactly one |
| `OrchestratorRuns.OthersSpendNone` | packages/hub/src/orchestrator/state-machine.ts:203-419 | every other call leaves that number alone or fails the session |
| `OrchestratorRuns.CompletedRunTookElevenAcks` | packages/hub/src/orchestrator/state-machine.ts:363-393 | every completed run counted exactly eleven acks |
| `OrchestratorRuns.CanAlwaysFinish` | packages/hub/src/orchestrator/state-machine.ts:363-450 | from every MIGRATING state some sequence of at most eleven acks reaches COMPLETE with nine steps done |
| `OrchestratorLaws.PairingNeedsBoth` | packages/hub/src/orchestrator/state-machine.ts:225-276 | over every run, PAIRING begins exactly when an agent connects to an idle session and the last heard of each agent is that it connected |
| `OrchestratorLaws.PreflightNeedsBoth` | packages/hub/src/orchestrator/state-machine.ts:287-293 | PREFLIGHT begins exactly when a code is confirmed in PAIRING and both agents have confirmed since it began |
| `OrchestratorLaws.WindowNeedsBothPassed` | packages/hub/src/orchestrator/state-machine.ts:304-322 | the window is awaited exactly when a result comes in PREFLIGHT and the latest results of both agents since it began are all passed |
| `OrchestratorLaws.PreflightFailsExactly` | packages/hub/src/orchestrator/state-machine.ts:304-322 | preflight fails the session exactly when both results are in and not all passed, naming the failed checks, the source's first |
| `OrchestratorLaws.IdleAgainExactly` | packages/hub/src/orchestrator/state-machine.ts:245-262 | back to IDLE exactly when an agent is lost in PAIRING or PREFLIGHT |
| `OrchestratorLaws.DispatchedExactly` | packages/hub/src/orchestrator/state-machine.ts:333-393 | step 1 is dispatched exactly by a start in AWAITING_WINDOW, every other exactly when the step before it is completed, and to the agent the table names |
| `OrchestratorLaws.CompletedExactly` | packages/hub/src/orchestrator/state-machine.ts:363-376 | a step is completed exactly when it is in progress and reported done, a bilateral one when both agents have reported it since it was dispatched |
| `OrchestratorLaws.FailedStepExactly` | packages/hub/src/orchestrator/state-machine.ts:404-419 | a step is reported failed exactly when it is in progress and an agent says so, in that agent's name |
| `OrchestratorLaws.AlertExactly` | packages/hub/src/orchestrator/state-machine.ts:266-276 | the alert is raised exactly when the target is lost from step 5 on |
| `OrchestratorLaws.FailsExactly` | packages/hub/src/orchestrator/state-machine.ts:203-419 | the session fails with a given reason exactly by an abort, the loss of the source before step 5 or the failure of the step in progress, and with these reasons |
| `OrchestratorLaws.SummaryIsTrue` | packages/hub/src/orchestrator/state-machine.ts:438-450 | the summary is sent exactly when step 9 is completed: nine steps, timed from the operator's start to that call |
| `OrchestratorLaws.DiagramIsExact` | packages/hub/src/orchestrator/state-machine.ts:38-63 | the diagram allows a change exactly if some call makes it |
| `Orchestrator.MigrationOrchestrator.constructor` | packages/hub/src/orchestrator/state-machine.ts:137-160 | a new instance is in IDLE with nothing emitted |
| `Orchestrator.MigrationOrchestrator.Transition` | packages/hub/src/orchestrator/state-machine.ts:459-468 | throws exactly for an edge outside the diagram; a self-loop is silent; otherwise the state moves and one event says so |
| `Orchestrator.MigrationOrchestrator.BeginRollback` | packages/hub/src/orchestrator/state-machine.ts:425-436 | never throws; ends in FAILED having emitted the table between its two transitions |
| `Orchestrator.MigrationOrchestrator.FinishSession` | packages/hub/src/orchestrator/state-machine.ts:438-450 | never throws; COMPLETE and a summary whose duration runs from the migration's start |
| `Orchestrator.MigrationOrchestrator.Start` | packages/hub/src/orchestrator/state-machine.ts:187-192 | throws exactly when already started; keeps the invariant |
| `Orchestrator.MigrationOrchestrator.Abort` | packages/hub/src/orchestrator/state-machine.ts:203-215 | never throws; rolls back exactly from MIGRATING at step 2 or later; keeps the invariant |
| `Orchestrator.MigrationOrchestrator.OnAgentConnected` | packages/hub/src/orchestrator/state-machine.ts:225-234 | never throws; the new fields and events are those of the specification; keeps the invariant |
| `Orchestrator.MigrationOrchestrator.OnAgentDisconnected` | packages/hub/src/orchestrator/state-machine.ts:245-276 | never throws; back to IDLE, rollback, alert or a bare record as the specification says; keeps the invariant |
| `Orchestrator.MigrationOrchestrator.OnSasConfirmed` | packages/hub/src/orchestrator/state-machine.ts:287-293 | never throws; PREFLIGHT exactly on the second agent's confirmation in PAIRING, as `PreflightNeedsBoth` says over runs; keeps the invariant |
| `Orchestrator.MigrationOrchestrator.OnPreflightResult` | packages/hub/src/orchestrator/state-machine.ts:304-322 | never throws; decides only when both results are in; keeps the invariant |
| `Orchestrator.MigrationOrchestrator.StartMigration` | packages/hub/src/orchestrator/state-machine.ts:333-345 | throws, changing nothing, exactly outside AWAITING_WINDOW; otherwise step 1 is dispatched |
| `Orchestrator.MigrationOrchestrator.RecordAck` | packages/hub/src/orchestrator/state-machine.ts:367-376 | the set of acks grows by the sender; it is dropped exactly when both agents are in it |
| `Orchestrator.MigrationOrchestrator.OnStepComplete` | packages/hub/src/orchestrator/state-machine.ts:363-393 | never throws; stale acks change nothing, the last ack of the step completes it; keeps the invariant |
| `Orchestrator.MigrationOrchestrator.OnStepFailed` | packages/hub/src/orchestrator/state-machine.ts:404-419 | never throws; FAILED at step 1, rollback from step 2 on; keeps the invariant |
| `HubGlue.CallDispatches` | packages/hub/src/session-manager.ts:400-426 | one call moves the step number by at most one, sends `execute_step` for a new step exactly to the agents assigned to it, relays nothing, and sends rollback instructions only if it rolls back |
| `HubGlue.RollbackFails` | packages/hub/src/orchestrator/state-machine.ts:425-436 | a call that rolls back leaves the session FAILED at the step it was at |
| `HubGlue.MessagesConcat` | packages/hub/src/session-manager.ts:374-509 | what events send an agent is what each sends, in order |
| `Rooms.Socket.SafeSend` | packages/hub/src/ws/rooms.ts:23-35 | enqueued and true exactly if the socket is open and the send does not throw |
| `Rooms.Room.SendToAgent` | packages/hub/src/ws/rooms.ts:93-95 | reaches that agent's socket, if it takes the message, and no other socket of the room |
| `Rooms.Room.RelayToPeer` | packages/hub/src/ws/rooms.ts:87-90 | reaches the other agent's socket, unchanged, if it takes the message, and no other |
| `Rooms.Room.BroadcastToDashboards` | packages/hub/src/ws/rooms.ts:98-102 | every attached dashboard that takes the message gets it once, no agent does |
| `Handler.AgentConnection.OnHello` | packages/hub/src/ws/handler.ts:190-228 | refused exactly when another open socket holds the role, and then only the newcomer is closed; otherwise role, socket and public key are recorded, the orchestrator hears of the agent, and after all that follows from it each agent is told the other's key, if both are known |
| `Handler.IntroducedMeans` | packages/hub/src/ws/handler.ts:215-226 | once both keys are known each agent is sent the other's key, and nothing else is sent |
| `Handler.AgentConnection.OnEncryptedPayload` | packages/hub/src/ws/handler.ts:230-252 | a payload reaches the peer as it came and nobody else; before hello it is dropped |
| `Handler.AgentConnection.OnLog` | packages/hub/src/ws/handler.ts:254-279 | one line, the same for the audit log and for every dashboard; no long token and no 64-number array in it; a clean line is kept as it came; before hello nothing is written or shown |
| `Handler.SnapshotIsClean` | packages/hub/src/ws/handler.ts:425-435 | if every agent line of the audit log was clean when written, no line replayed to a joining dashboard holds a long token or a 64-number array |
| `Handler.AgentConnection.OnGone` | packages/hub/src/ws/handler.ts:295-305 | socket and public key leave the room only if the socket is still the role's, but the disconnect is reported either way |
| `Handler.DashboardConnection.OnJoin` | packages/hub/src/ws/handler.ts:333-435 | a page is taken in exactly with the session's token and row; then it is one of the room's dashboards and its socket has been sent the snapshot of the row, the connections, the orchestrator's step if migrating, and the audit log |
| `Handler.DashboardConnection.OnGone` | packages/hub/src/ws/handler.ts:460-470 | it is no longer one of them |
| `Sessions.OnStateChange` | packages/hub/src/session-manager.ts:378-398 | sends what the event means: the change to dashboards and, on PREFLIGHT, the request to both agents |
| `Sessions.OnExecuteStep` | packages/hub/src/session-manager.ts:400-425 | both agents for a bilateral step, the executor otherwise, and a running mark to dashboards |
| `Sessions.OnRollback` | packages/hub/src/session-manager.ts:449-469 | the flag to both agents, then the instruction to the step's executor |
| `Sessions.Deliver` | packages/hub/src/session-manager.ts:378-508 | for every kind of event, exactly its messages and broadcasts are added to the room's sockets |
| `Sessions.FanoutMore` | packages/hub/src/session-manager.ts:374-509 | sending event by event, with sends and broadcasts interleaved, adds what the whole list adds |
| `Sessions.FanoutMeans` | packages/hub/src/session-manager.ts:374-509 | each agent's socket gets its own messages, every page's the broadcasts |
| `Sessions.SessionManager.Publish` | packages/hub/src/session-manager.ts:374-509 | the row, the sockets and the orchestrator map after all listeners of a call's events have run |
| `Sessions.SessionManager.GetOrRevive` | packages/hub/src/session-manager.ts:356-368 | the live orchestrator; else, if there is a row, a fresh started one in IDLE whatever the row says; else none |
| `Sessions.SessionManager.Perform` | packages/hub/src/session-manager.ts:211-279 | find or revive, call, run the listeners: row, sockets and orchestrator of this session change as specified, no other session is touched, an unknown session changes nothing |
| `Sessions.SessionManager.HandleAgentMessage` | packages/hub/src/session-manager.ts:211-243 | each message makes its orchestrator call with the sender's role; an announced code reaches the dashboards only, and only in a session that is there; other messages only look the session up |
| `HubLaws.HelloOutcome` | packages/hub/src/session-manager.ts:220-222 | a hello: PAIRING in the row and on the pages if the other agent is there, nothing else |
| `HubLaws.SasOutcome` | packages/hub/src/session-manager.ts:226-228 | a confirmed code: with the other agent's, PREFLIGHT and the request to both agents, else nothing |
| `HubLaws.PreflightedOutcome` | packages/hub/src/session-manager.ts:229-231 | a list of checks: with the other agent's, AWAITING_WINDOW if all passed and FAILED otherwise, and no agent is sent anything |
| `HubLaws.DoneStepOutcome` | packages/hub/src/session-manager.ts:232-234 | a step done: ignored unless it ends the step in progress; then the next step goes to exactly its agents, or the row is completed and the session over |
| `HubLaws.BrokenStepOutcome` | packages/hub/src/session-manager.ts:235-237 | a step failed: the row FAILED, the session over, the pages told that it failed, both agents sent their rollback from step 2 on; ignored for any other step |
| `HubLaws.LostOutcome` | packages/hub/src/session-manager.ts:275-279 | a lost agent: back to IDLE, a rollback, an alert or nothing |
| `HubLaws.ReportsAlike` | packages/hub/src/session-manager.ts:232-237 | the composed system handles a report as the manager does: the same orchestrator, the same messages to each agent |
| `HubLaws.PayloadsAlike` | packages/hub/src/ws/handler.ts:230-252 | and relays a payload to the other agent alone, as it came |
| `Sessions.SessionManager.HandleSasAnnouncement` | packages/hub/src/session-manager.ts:306-344 | the code is kept if there is a room; once both are in, the pair and whether it matches are broadcast, with an alert if not |
| `Sessions.OnlyFirstPairIsShown` | packages/hub/src/session-manager.ts:289-344 | over all announcements the dashboards are told exactly if both agents have announced at some point, then once, of the pair as it first stood complete, matching exactly if the codes are equal and with an alert exactly if not |
| `Sessions.SessionManager.HandleDashboardMessage` | packages/hub/src/session-manager.ts:250-268 | start and abort reach the orchestrator, a SAS click does not; throws exactly for a start outside AWAITING_WINDOW |
| `HubLaws.StartOutcome` | packages/hub/src/session-manager.ts:255-257 | a start: step 1 to the source and MIGRATING, if the window is awaited, else nothing |
| `HubLaws.AbortOutcome` | packages/hub/src/session-manager.ts:258-264 | an abort: FAILED, with the rollback from step 2 on, unless the session is over; a click on the codes does nothing |
| `Sessions.SessionManager.HandleAgentDisconnect` | packages/hub/src/session-manager.ts:275-279 | a lost socket reaches the orchestrator as a disconnect of that role |
| `Sessions.SessionManager.GetCurrentStep` | packages/hub/src/session-manager.ts:285-287 | the orchestrator's step, 0 when there is none |
| `Sessions.SessionManager.Create` | packages/hub/src/session-manager.ts:96-124 | a row in IDLE under the drawn code, a token, and a started orchestrator shared with no other session; if another row has the code nothing happens |
| `Sessions.SessionManager.AllocateUniqueCode` | packages/hub/src/session-manager.ts:513-523 | the first of sixteen draws that no room uses, and one more draw exactly if all are used |
| `Sessions.SessionManager.VerifyDashboardToken` | packages/hub/src/session-manager.ts:129-139 | true exactly for the session's own token |
| `Sessions.SessionManager.Cancel` | packages/hub/src/session-manager.ts:175-197 | succeeds exactly for a row in IDLE or PAIRING, aborts the orchestrator if there is one, leaves the row FAILED either way, and after what the abort sent tells both agents |
| `Sessions.ToldCancelledMeans` | packages/hub/src/session-manager.ts:186-195 | each agent is told of the cancellation once and no page is |
| `Sessions.ForgottenRowExactly` | packages/hub/src/session-manager.ts:356-368 | of all single calls on a session that has a row and no orchestrator, exactly an abort of a row not FAILED yet rewrites it, a COMPLETE row included |
| `Sessions.ForgottenRowPairsAgain` | packages/hub/src/session-manager.ts:347-368 | both agents saying hello to such a session put its row back to PAIRING |
| `Sessions.RowStaysInStep` | packages/hub/src/session-manager.ts:378-490 | a row that says what was emitted keeps saying it: its state is the orchestrator's, completed exactly at COMPLETE, and the orchestrator is dropped exactly when the session ends |
| `Envelope.Base64RoundTrip` | packages/agent/src/crypto/encrypt.ts:67-73 | decoding inverts encoding for every byte string (section 4 of RFC 4648) |
| `Envelope.FrameRoundTrip` | packages/agent/src/crypto/encrypt.ts:78-101 | a frame decodes to what was encoded exactly when the nonce has 24 bytes and the ciphertext is not empty |
| `Envelope.PeekOfSeal` | packages/agent/src/commands/agent.ts:924-933 | sealing, framing, unframing and opening with the same key gives the envelope back |
| `Envelope.TowerTransfer` | packages/agent/src/commands/agent.ts:674-707 | a relayed tower passes the hash check and is stored byte for byte under the source's file name |
| `Envelope.IdentityTransfer` | packages/agent/src/commands/agent.ts:709-749 | a relayed identity is stored exactly when its declared public key is the derived one, and then byte for byte |
| `Envelope.StoredMatchesHash` | packages/agent/src/commands/agent.ts:674-749 | whatever arrives, what is stored is what the declared hash was taken of, if the hash has no collisions |
| `EnvelopeLaws.Alphabet64` | packages/agent/src/crypto/encrypt.ts:67-73 | base64 uses the standard alphabet (table 1 of RFC 4648) |
| `EnvelopeLaws.TestVectors` | packages/agent/src/crypto/encrypt.ts:67-73 | the test vectors of section 10 of RFC 4648 |
| `EnvelopeLaws.FrameFormat` | packages/agent/src/crypto/encrypt.ts:78-85 | a frame is the nonce, a dot and the ciphertext, and that dot is the first |
| `EnvelopeLaws.DecodesExactly` | packages/agent/src/crypto/encrypt.ts:86-101 | a text is refused without a dot, with an empty part or a nonce of another length, and read around its first dot otherwise |
| `EnvelopeLaws.KindOfSealed` | packages/agent/src/commands/agent.ts:924-933 | a sealed payload is read as its own kind, unknown ones included |
| `EnvelopeLaws.SentIs` | packages/agent/src/commands/agent.ts:645-820 | what each sender seals, and the hash it declares |
| `EnvelopeLaws.PubkeyExactly` | packages/agent/src/solana/keypair.ts:116-124 | exactly a key of 64 bytes has a public key, the base58 text of its public half |
| `Base58.Base58Encode` | packages/agent/src/solana/keypair.ts:133-157 | the three loops compute the specification encoder |
| `Base58.RoundTrip` | packages/agent/src/solana/keypair.ts:133-157 | an independent decoder recovers every byte string; leading `1`s count leading zero bytes exactly |
| `Base58.Injective` | packages/agent/src/solana/keypair.ts:133-157 | different byte strings encode differently |
| `Base58.PubkeyLength` | packages/agent/src/solana/keypair.ts:116-124 | every 32-byte input yields 32 to 44 characters |
| `PayloadQueue.PendingPayloads.ScanOnce` | packages/agent/src/commands/agent.ts:948-966 | one pass of the splice-and-decrement loop terminates and is the specified scan |
| `PayloadQueue.ScanConserves` | packages/agent/src/commands/agent.ts:948-966 | something is found exactly when a wanted entry is queued, it is the first one, and of the readable entries nothing else leaves |
| `PayloadQueue.ScanAgain` | packages/agent/src/commands/agent.ts:947-968 | scanning again after more has arrived equals scanning everything at once |
| `PayloadQueue.KeptMeans` | packages/agent/src/commands/agent.ts:948-966 | of what is scanned past exactly the readable entries stay, each as often as it was there and in order |
| `PayloadQueue.ScansCommute` | packages/agent/src/commands/agent.ts:935-940 | waiters for any two different kinds, queued or not, get the same entries and leave the same queue in either order |
| `QuietGate.FindValidator` | packages/agent/src/commands/agent.ts:878-880 | the first entry that carries the source's key, or none if no entry does |
| `QuietGate.GatePassesUnseenExactly` | packages/agent/src/commands/agent.ts:872-883 | every poll that sees the source absent or delinquent throughout passes; one that does not passes exactly if its answer has no list, or a delinquent entry for the source precedes one that is not |
| `QuietGate.UnseenSourcesPass` | packages/agent/src/commands/agent.ts:872-883 | two polls, one of each kind, that pass without showing the source quiet |
| `VotingCheck.CheckErrsExactly` | packages/agent/src/solana/validator.ts:141-161 | a key that every entry shows voting is never overlooked; one that is not so shown passes exactly if an entry that votes precedes one that does not |
| `VotingCheck.NeverBoth` | packages/agent/src/solana/validator.ts:141-161 | no poll passes the gate as quiet and step 8 as voting for the same key |
| `VotingCheck.ShowsVotingExactly` | packages/agent/src/solana/validator.ts:155-160 | the test passes exactly if the first entry with the key is marked not delinquent and has a last vote above zero |
| `Agent.OthersOnlySend` | packages/hub/src/ws/handler.ts:230-291 | whatever the hub, the peer or the network do, they touch only an agent's connection: while it lasts, messages arrive at its end and reports leave at its head |
| `Agent.AgentProcess.constructor` | packages/agent/src/commands/agent.ts:287-292 | the process of any agent that is up and listens, at any point of a run, handlers in progress included |
| `Agent.AgentProcess.OnMessage` | packages/agent/src/commands/agent.ts:296-401 | every message of the migrating stage is one action of the composed system: it starts a handler, queues a payload, notes the confirmation or begins or refuses a rollback step, and leaves the server alone |
| `Agent.AgentProcess.OnTurns` | packages/agent/src/commands/agent.ts:293-403 | a wait: messages taken, rollback handlers ending and any moves of hub, peer and connections, in any order; the step handlers in progress are left, the server changes only by rollback steps, and the queue grows by the payloads that came |
| `Agent.AgentProcess.OnRelayPayload` | packages/agent/src/commands/agent.ts:296-315 | a confirmation sets the flag and is not queued; everything else, unreadable payloads included, is queued at the end |
| `Agent.AgentProcess.OnExecuteRollbackStep` | packages/agent/src/commands/agent.ts:1012-1105 | refused at once for the wrong role, a missing staked key file or no vote-account keypair, started otherwise |
| `Agent.AgentProcess.OnRollbackEnd` | packages/agent/src/commands/agent.ts:1028-1130 | a handler that ends with ok has restored identity or voter or removed key and tower, whatever was noticed of it; it touches nothing else, and one that failed without effect touches nothing; its name and result are reported |
| `Agent.AgentProcess.Finish` | packages/agent/src/commands/agent.ts:385-400 | one report per handler, complete or failed as the body ended |
| `Agent.AgentProcess.WaitForConfirmation` | packages/agent/src/commands/agent.ts:831-841 | ends without the confirmation only after the deadline, at once if it is in; the server changes only by rollback steps |
| `Agent.AgentProcess.WipeKeypair` | packages/agent/src/commands/agent.ts:828-851 | the key file goes only with the confirmation in, and goes if the handler finishes; it finishes whenever the confirmation and the file are there and the command succeeds; a failure without the confirmation comes only after the deadline |
| `Agent.AgentProcess.TakePendingOfKind` | packages/agent/src/commands/agent.ts:941-970 | whatever the timing and whatever the system does in the pauses, what is taken and left is one scan of everything that had come; a timeout comes only after the deadline with nothing wanted at the last poll; every empty round is one action |
| `Agent.AgentProcess.WaitForSourceQuiet` | packages/agent/src/commands/agent.ts:862-890 | passes on the first poll that passes the test, begun before the deadline, and fails only after the deadline with no poll having passed |
| `Agent.AgentProcess.Activate` | packages/agent/src/commands/agent.ts:751-789 | the identity is taken only with the gate skipped or on a poll that passed for the key received in step 5, and is taken if the handler finishes; it finishes whenever the first poll passes and the command succeeds |
| `Agent.AgentProcess.SendTowerFile` | packages/agent/src/commands/agent.ts:645-672 | sends the tower sealed under the name its key gives it, exactly if key, tower and socket are there, and fails otherwise |
| `Agent.AgentProcess.ReceiveTowerFile` | packages/agent/src/commands/agent.ts:674-707 | finishes only with the content of a tower that came and passed its hash check in place; else the server changes only by rollback steps |
| `Agent.AgentProcess.SendKeypair` | packages/agent/src/commands/agent.ts:709-727 | sends the staked key sealed with its public half, exactly if key and socket are there, and fails otherwise |
| `Agent.AgentProcess.ReceiveKeypair` | packages/agent/src/commands/agent.ts:728-749 | the same for the key, whose declared public half is kept with it and is the derived one |
| `Agent.AgentProcess.ConfirmVoting` | packages/agent/src/commands/agent.ts:799-826 | the confirmation is sent exactly if the look at the cluster's list shows the received key voting and the socket is open; the step fails otherwise |
| `Agent.AgentProcess.IsVoting` | packages/agent/src/solana/validator.ts:141-161 | the look passes exactly if the first entry for the key is not delinquent and has voted |
| `Agent.AgentProcess.RunOneCommand` | packages/agent/src/commands/agent.ts:602-643 | a finished step 2 or 3 of the source has given up the identity or the voters, and nothing else; the other agent's steps do nothing |
| `Agent.AgentProcess.AddVoter` | packages/agent/src/commands/agent.ts:791-797 | the voter is added by the received key's command or not at all |
| `Agent.AgentProcess.ExecuteStep` | packages/agent/src/commands/agent.ts:354-403 | from the start of a step handler to its report, or to a wait the world has not ended, with the others moving at every wait, all that happens is one sequence of actions of the composed system |
| `AgentRuns.ReachableIsLive` | packages/agent/src/commands/agent.ts:404-436 | every process that is up in a run can be taken over by the code: none that is up has exited, and its rollback steps are its own |
| `AgentRuns.Live` | packages/agent/src/commands/agent.ts:293-436 | the code of either agent, taken over at any point of any run and interleaved with anything, ends in a state the system's runs reach, and its own server is safe: identity only past the gate and never beside the source's unless a rollback began at step 6 or later; key file gone only after the takeover and a look that showed the staked key voting, and the key lost only as said |
| `AgentRuns.TakesOver` | packages/agent/src/commands/agent.ts:751-789 | wherever step 6 has been dispatched, the code on a poll that passes takes the identity |
| `AgentRuns.WipesKey` | packages/agent/src/commands/agent.ts:828-851 | wherever step 9 has been dispatched, the code destroys the source's key file |
| `SystemSteps.HubStepKeepsInv` | packages/hub/src/orchestrator/state-machine.ts:187-450 | every justified orchestrator call keeps the invariant that ties channels, handlers, acks and servers to the step in progress |
| `SystemSteps.HubReceiveKeepsInv` | packages/hub/src/ws/handler.ts:230-291 | so does the hub's handling of any agent message, relays included |
| `SystemSteps.AgentReceiveKeepsInv` | packages/agent/src/commands/agent.ts:293-403 | so does an agent taking any message |
| `SystemBodies.RunBodyKeepsInv` | packages/agent/src/commands/agent.ts:596-856 | so does every piece of every step body, whatever the world answers |
| `SystemBodies.ReportKeepsInv` | packages/agent/src/commands/agent.ts:385-400 | so does reporting a step |
| `SystemBodies.RollbackKeepsInv` | packages/agent/src/commands/agent.ts:1012-1140 | so does finishing a rollback handler |
| `SystemBodies.CutKeepsInv` | packages/agent/src/commands/agent.ts:413-436 | so does a lost connection with any part of the channels lost, and an exit |
| `SystemBodies.ReachableHasInv` | packages/hub/src/session-manager.ts:96-124 | the invariant holds in every state any run from `create` reaches |
| `SystemTheorems.ActivationIsGuarded` | packages/agent/src/commands/agent.ts:751-789 | in every run, rollbacks included, the target took the staked identity only after the source finished steps 2 and 3, the key was stored and, unless the gate was skipped, a poll had passed the gate's test for the public half of the staked key; and the key it then goes by is that one |
| `SystemTheorems.SingleIdentity` | packages/agent/src/commands/agent.ts:624-789 | in every reachable state with no rollback begun at step 6 or later the two validators are not both on the staked identity |
| `SystemTheorems.NothingDeactivatesTarget` | packages/hub/src/orchestrator/rollback.ts:26-47 | no action, rollback steps included, takes the staked identity away from the target |
| `SystemTheorems.WipeOnlyAfterTakeover` | packages/agent/src/commands/agent.ts:799-851 | in every run, when the source's key file is gone the target had already activated and added the voter, a look at the cluster had shown the public half of the staked key voting, and the target had sealed the confirmation and finished steps 6 to 8 |
| `SystemTheorems.KeyConservation` | packages/agent/src/commands/agent.ts:709-851 | while the target's agent is up and no rollback began at step 9, the staked key is in the source's file or the target's |
| `SystemTheorems.CausalDelivery` | packages/agent/src/commands/agent.ts:831-841 | a source running step 9 has already processed the confirmation, so the wait never polls |
| `SystemTheorems.QueueIsSmall` | packages/agent/src/commands/agent.ts:293-315 | the target's queue never holds more than one payload, the one of the step in progress, and the scan of that step takes it |
| `SystemTheorems.EndToEnd` | packages/agent/src/commands/agent.ts:645-749 | a tower the target stored was read by the source, the only key it ever stores is the staked one, and a finished step 4 or 5 stored something |
| `SystemTheorems.ExactlyOnce` | packages/agent/src/commands/agent.ts:354-403 | each agent runs at most one handler at a time and starts only its own steps, each at most once, in order |
| `SystemTheorems.CompletedMeansDone` | packages/hub/src/orchestrator/state-machine.ts:363-376 | a step the hub counts as completed was finished by every agent assigned to it, although the hub does not check who reports |
| `SystemTheorems.CompleteIsHandedOver` | packages/hub/src/orchestrator/state-machine.ts:438-450 | at COMPLETE the source has no staked identity, voter or key file and the target has all three |
| `SystemWitness.RollbackSends` | packages/hub/src/session-manager.ts:449-469 | the exact messages a rollback sends each agent |
| `SystemWitness.GetsTo` | packages/hub/src/orchestrator/state-machine.ts:333-393 | every step is reachable with nothing gone wrong |
| `SystemWitness.CanComplete` | packages/hub/src/orchestrator/state-machine.ts:438-450 | some run completes |
| `SystemWitness.ActivatesExactly` | packages/agent/src/commands/agent.ts:751-789 | with the gate in force, a poll is behind an activation in some run exactly if it passes the test for the staked key's public half; an answer without a list is one |
| `SystemWitness.WipesExactly` | packages/agent/src/commands/agent.ts:799-851 | a look at the cluster is behind a wipe in some run exactly if its first entry for the staked key's public half votes |
| `SystemWitness.DualIdentityExactly` | packages/agent/src/commands/agent.ts:1032-1065 | both validators can be on the staked identity after a rollback begun at step k exactly for k from 6 to 9 |
| `SystemWitness.KeyGoneExactly` | packages/agent/src/commands/agent.ts:1088-1105 | the key can be on neither server exactly after a rollback begun at step 9, or, without rollback, after the target's agent exited |
| `SystemWitness.RollbackCanRestore` | packages/hub/src/orchestrator/rollback.ts:15-47 | given the vote-account keypair, from every step from 2 on a rollback whose handlers succeed puts the source back on identity, voter and key and clears the target's files; before step 6 the target is then not on the staked identity |
| `Dashboard.SessionStore.OnMessage` | packages/web/lib/store.ts:244-292 | each message changes the store as the reducers say, updates in place included |
| `Dashboard.UpdateStepMeans` | packages/web/lib/store.ts:165-174 | the step's first entry is replaced where it stands or the entry is appended, and nothing else changes |
| `Dashboard.UpdateNumbered` | packages/web/lib/store.ts:165-174 | on a list numbered 1, 2, ... an update replaces its entry or appends the next one and keeps the numbering |
| `Dashboard.SendSnapshot` | packages/hub/src/ws/handler.ts:369-436 | the loops send state, agents' connections, the steps' progress and the last 200 audit rows but the hub's own, in this order |
| `Dashboard.SnapshotBegins` | packages/hub/src/ws/handler.ts:369-436 | state first, connections second, and the replay is of the newest 200 rows |
| `Dashboard.ReplayMeans` | packages/hub/src/ws/handler.ts:425-435 | row by row, in order, an agent's row is replayed as it was logged and the hub's own are not |
| `Dashboard.SnapshotFolds` | packages/hub/src/ws/handler.ts:398-423 | folded over whatever an earlier connection left, the snapshot fixes the first entries and keeps the rest |
| `Dashboard.JoiningShows` | packages/hub/src/ws/handler.ts:369-423 | a page that joins a session that has not failed shows the state and exactly the orchestrator's progress |
| `Dashboard.CallShows` | packages/hub/src/session-manager.ts:378-485 | live broadcasts keep a page faithful to the orchestrator, call after call |
| `Dashboard.RowFollowsTrace` | packages/hub/src/session-manager.ts:378-490 | after any accepted trace the row's state is the orchestrator's and it is completed exactly at COMPLETE |
| `Dashboard.LateJoinAgreement` | packages/hub/src/ws/handler.ts:369-423 | over every run and every pattern of joins, losses and reloads, a page last joined while the session had not failed holds the state and steps of one connected all along, then and later |
| `Dashboard.FailedJoinExactly` | packages/hub/src/ws/handler.ts:398-423 | a fresh page joining a FAILED session agrees with one connected all along exactly when no step was dispatched |
| `Dashboard.CompleteJoinLacksSummary` | packages/hub/src/ws/handler.ts:398-406 | a fresh page joining a COMPLETE session has all steps and no summary |
| `DashboardLaws.ShownIsTrue` | packages/hub/src/session-manager.ts:400-447 | over every run a page that was there all along shows a step failed exactly if its failure was reported, complete exactly if it was completed, running otherwise |
| `DashboardLaws.JoinedPageIsTrue` | packages/hub/src/ws/handler.ts:369-423 | so does a page last joined while the session had not failed, through failures and rollbacks |
| `DashboardLaws.SummaryShown` | packages/hub/src/session-manager.ts:471-485 | the summary shown is the one the session was completed with |
| `Redact.HasLongToken` | packages/shared/src/redact.ts:47-50 | true exactly when 40 consecutive characters are token characters |
| `Redact.ArrayHereMeans` | packages/shared/src/redact.ts:33 | a deterministic scan matches at a position exactly when a bracketed list of 64 or more numbers starts there, and matches exactly that list |
| `Redact.NothingSurvives` | packages/shared/src/redact.ts:30-40 | for texts under 10^39 characters the output has no long token and no 64-number array |
| `Redact.ChangesOnlySecrets` | packages/shared/src/redact.ts:30-40 | the output equals the input exactly when the input had neither |
| `Redact.RedactTwice` | packages/hub/src/ws/handler.ts:259-262 | redacting again, as the hub does with an agent's log, changes nothing |
| `Redact.ArrayIsReplaced` | packages/shared/src/redact.ts:33 | an array is replaced by its mark wherever it stands, the text around it treated as if alone |
| `Redact.TokenIsReplaced` | packages/shared/src/redact.ts:35-38 | a long token is replaced by a mark with its length, the text around it treated as if alone |
| `RedactLaws.ArrayLaw` | packages/shared/src/redact.ts:30-40 | through all passes an array becomes its mark, and the text on either side is redacted as if it stood alone |
| `RedactLaws.Base64Law` | packages/shared/src/redact.ts:30-40 | so does a standalone run of 60 or more base64 characters, padding included |
| `RedactLaws.TokenLaw` | packages/shared/src/redact.ts:30-40 | and any other standalone token of 40 or more characters |
| `RedactLaws.OnlyTheSecret` | packages/shared/src/redact.ts:30-40 | in a text with nothing else to redact every other character stays where it was |
| `RedactLaws.DecimalDenotes` | packages/shared/src/redact.ts:34-38 | the count in a mark is the length in decimal |
| `RedactLaws.KeysAreSeen` | packages/shared/src/redact.ts:20-28 | every base58 or base64 text of a secret of 40 bytes or more is a long token |
| `Redact.BoundIsNeeded` | packages/shared/src/redact.ts:35-38 | the bound is needed: 10^39 equals signs leave a 40-digit count |
| `Redact.SanitizeMeans` | packages/shared/src/redact.ts:64-72 | refused exactly when the visible part, the first line or its first 200 characters, holds a long token; otherwise that part is shown, with an ellipsis exactly if it was cut |
| `Redact.FirstLineMeans` | packages/shared/src/redact.ts:66 | the first line is what stands before the first LF or CR LF |
| `RateLimit.WsRateLimiter.LimitExceeded` | packages/hub/src/ws/handler.ts:75-85 | over interleaved arrivals, refused exactly if the arrival is not admitted among those of its own address, and never without one; each address's counter is that of its own arrivals |
| `RateLimit.CounterMeans` | packages/hub/src/ws/handler.ts:75-85 | the counter is the number of arrivals in the window in force; the last was admitted exactly if it is among its first 30 |
| `RateLimit.AdmittedExactly` | packages/hub/src/ws/handler.ts:71-85 | how many arrivals an interval of at most 60 000 ms admits, from where in it a window opens |
| `RateLimit.AtMost59InAnyInterval` | packages/hub/src/ws/handler.ts:71-85 | with a clock that never runs back, any 60 000 ms interval admits at most 59 connections from one address |
| `RateLimit.FiftyNineIsReached` | packages/hub/src/ws/handler.ts:71-85 | an arrival sequence that admits 59 within one millisecond |
| `RateLimit.KeepsToThirtyExactly` | packages/hub/src/ws/handler.ts:71-85 | the interval up to the last arrival keeps to 30 exactly if no window opens in it, or the arrivals counted in its two windows come to 30 or fewer |
| `RateLimit.AnyIntervalKeepsToThirtyExactly` | packages/hub/src/ws/handler.ts:71-85 | the same for every interval of at most 60 000 ms |
| `RateLimit.RefusedOnlyAfter30` | packages/hub/src/ws/handler.ts:75-85 | a connection is refused only if 30 from its address were admitted within the 60 000 ms before it |

## Left out

- Several agent processes per role, reconnection during the migration (the client refuses it), hub restart and revival inside a run: the composed system starts at `create` and has one agent per role.
- The order in which an agent's rollback handlers run: each starts on its own, so only the order of the instructions is fixed; the composed system lets them finish in any order.
- System: step handlers suspend between awaits and interleave with messages, so the composed system is on values; `Agent.AgentProcess` runs one step handler at a time, which is all there ever is (`SystemTheorems.ExactlyOnce`), and an exit ends its run.
- System: a failed write of the tower to the target's disk leaves the modelled file unchanged, and the tower's search, sanity check and read-back are one outcome; no claim is made about a tower that was not acknowledged.
- System: wiping is an atomic loss of the file or nothing, the operator's prompts and command-line flags other than `--keypair` and the two switches that skip the quiet gate are outcomes.
- Envelope.FromBase64: skips characters that are not base64, which differs from the runtime's lenient decoder on malformed text; only texts the encoder made are claimed about.
- Envelope.Sound: the cipher, hash, JSON and key derivation are library code; nothing is claimed about secrecy or forgery.
- RedactLaws.Base64Law: a run of digits alone is left out, because it can be a number inside an array; so too in `RedactLaws.TokenLaw`.
- Redact: text is a sequence of characters, so the cut at 200 counts characters where the program counts UTF-16 units.
- Sessions.SessionManager.Create: the room made in advance is not modelled; `room` and `inRooms` stand for the registry's answers, and the draws and the token for the random generator.
- Handler.AgentConnection.OnHello: a socket that already serves the other role or watches as a dashboard is outside the contract, because the room's sockets are taken to be distinct.
- Rooms.Socket.SafeSend: whether a send throws is a property of the socket, fixed while one call runs.
- Agent.AgentProcess.OnExecuteRollbackStep: whether the vote-account keypair's file is there is fixed for a run, and files already gone from the target are part of the rollback handler's outcome.
- Dashboard: connection lights, logs, pre-flight lists and authentication strings are sent but are not part of the view; refused joins are joins that do not happen.
- Handler.DashboardConnection.OnJoin: expired sessions and the rate limit are checked before and not in it.
- Dashboard.SendSnapshot: the audit rows are given in time order, as the database returns them.
- Reason texts are structured values, not strings; step results carry no output.
- HTTP routes, the database engine, message schemas, heartbeats and timers, step time-outs, the web interface, install scripts: nothing in them that the properties above depend on.
