# Friday Hub, verified

The Friday Hub (`fridayd`) is the control plane of a private fleet. It is built from small
persistent state machines whose guarantees span several classes, a moving clock and
crashes. This project models them in Dafny 4.11 and proves what they promise.
`dafny verify dfyconfig.toml` checks everything.

| files | what they model |
|---|---|
| `takeover_lock`, `takeover_release` | the lock that keeps two processes from writing the same event file: hard links, stale owners, chains of takeover claims |
| `event_log`, `jsonl_event_store`, `jsonl_durability` | the hash chain, the JSONL file, and its recovery after a crash at any byte |
| `sqlite_event_store`, `sqlite_history`, `event_contents` | the SQLite event table, its mirror in memory, the migration of a JSONL file |
| `job_registry`, `node_tool_policy`, `hub_runs`, `hub_guarantees`, `hub_restart`, `job_laws`, `tool_clearance` | Jobs with signed leases, classified tool calls, approvals, and the reconciliation after a restart |
| `model_access`, `model_routes` | short-lived model tokens that hang off the same leases |
| `canonical_json`, `canonical_json_proofs`, `json_reader`, `json_round_trip` | the canonical text whose digest identifies messages and envelopes |
| `friday_state`, `hub_log`, `friday_laws` | event-sourced state, live and replayed, and the log that the request handlers write |
| `channel_outbox`, `outbox_queue`, `outbox_runs`, `outbox_guarantees`, `outbox_laws` | the leased queue of channel notifications in two tables |
| `notification_text`, `text_laws`, `truncate_utf8`, `job_channel_notifier`, `hub_start`, `hub_start_runs` | the texts of notifications, which of them are accepted, and the work a start of the Hub does with Jobs that ended and calls that are held |
| `improvement_jobs`, `conversation`, `conversation_scheduling`, `conversation_callbacks`, `conversation_runs`, `conversation_bindings`, `conversation_guarantees`, `conversation_failures`, `conversation_laws` | conversation turns, model calls, the callbacks that turn a proposal into a Job, and the one Job of a turn |
| `self_patch`, `self_patch_runs`, `self_patch_guarantees`, `self_patch_laws` | the life of a self-improvement and its clearance manifest |
| `utf8`, `utf8_laws`, `framing`, `framing_laws`, `text_chunks` | JSONL framing of a stream, and splitting text by its UTF-8 size |

A class stands for a class of the source. Each of its methods is proved against a function
on values; the runs, crashes and interleavings are built from those functions, and the
main results are about all runs. A crash is an operation of which only the first commits
happened. `Reach(…)` is the state after a run from the empty database. The modules whose
names end in `laws`, and those about clearance, routes, contents, release and round trips,
say what an operation's answer means without the functions and tables that compute it.

## What turned out different

Where the code does not do what one would expect of it, the model follows the code.

- A Hub that stopped a task, or approved a Job by policy, never starts again: both handlers
  append an event type that `apply` rejects (`HubLog.ReplaysIffSupported`,
  `HubLog.StopTaskThenRestartFails`).
- Opening the node tool policy can throw: a call is stored before its Job is held, and a
  Runner may move a held Job on. `HubRestart.OpenThrowsIffBlocked` says exactly when,
  `HubRestart.OpenCanThrow` gives a run.
- Events that `open` has served are not synced by it; a power failure can take the last one
  back. Acknowledged events are safe. `JsonlDurability.ExposedSurvivesEveryCrashIff` says
  exactly which logs survive, `JsonlDurability.OpenIsDurableIff` and
  `JsonlDurability.DurableSinceAppend` when that is so, `JsonlDurability.ExposedCanBeLost`
  gives a run. An event whose append failed may be recovered, so the acknowledged events
  keep their positions in what is recovered, next to events nobody acknowledged.
- A bound Job that reported a NUL and ended can keep the Hub from starting: its
  notification is refused if and only if the NUL lies in the part of the message that is
  not cut off, `reconcile` then throws, and nothing in the start catches it
  (`JobChannelNotifier.ReconcileLeavesNoneMissing`, `HubStart.StartsIff`). The next start
  fails as well (`HubStart.StaysDown`). `HubStartRuns` has a run for each case.
- After a restart a held call may be one that cannot be approved, because its Job no longer
  waits. `HubRestart.HeldCallIsDecidedIff` says exactly when,
  `HubRestart.HeldCallCanBeUndecidable` gives a run.
- Behind 64 claims of dead processes the event store does not open again, although nobody
  holds its lock: `TakeoverLock.LoneAgentGetsTheLockIff` says exactly when a lone process
  gets the lock, `TakeoverLock.DeadChainIsTakeableIff` gives the states,
  `TakeoverLock.BlockedForEver` shows that they are final.
- With a limit below four bytes `textChunks` may emit an empty or oversized chunk;
  `TextChunks.ChunksSplitIffEachFits` says when, `TextChunks.NarrowLimitSplitsBadly` gives
  an input. No caller in the repository sets a limit; the default is 3500.
- A scheduling error may be recorded although the Job exists, because the Owner was faster
  than the policy (`ConversationGuarantees.PolicyApprovalIsReportedIff`), because the
  improvement is bound to another Job (`ConversationGuarantees.FirstSchedulingReportsIff`),
  or because the Hub or its disk failed on the way. A retry does not always find that Job:
  `ConversationGuarantees.RetryRecordsTheJobIff` says exactly which retries do. A
  self-improvement Job that was created but not registered, and has ended, is refused at
  every retry (`ConversationGuarantees.StrandedForEver`). `ConversationFailures` has a run
  for each case.

## Model

The main results come first, in the order of the files above; then the invariants and steps
they rest on, and corollaries; then the loops and the methods of the classes, each of which
is proved against a function of the same operation on values.

| member | source | states |
|---|---|---|
| `TakeoverLock.MutualExclusion` | apps/fridayd/src/event-store.ts:369-503 | Over every interleaving of any number of processes, each of which may crash or give up at any step, no two live agents ever own the store's lock. |
| `TakeoverLock.OwnerIsPublished` | apps/fridayd/src/event-store.ts:369-503 | While a live agent owns the lock, the lock file at the well-known path is the inode it published. |
| `TakeoverLock.OneClaimantPerStaleLock` | apps/fridayd/src/event-store.ts:408-496 | While a dead owner's lock is still published, at most one live agent holds a claim anywhere in the successor chain of that lock's generation. |
| `TakeoverLock.LoneAgentGetsTheLockIff` | apps/fridayd/src/event-store.ts:369-500 | An agent that nothing disturbs can come to own the lock if and only if there is no lock, or its owner is dead and the claim chain of that lock's generation leads over dead claims to a free path at depth 63 or less. |
| `TakeoverLock.BlockedForEver` | apps/fridayd/src/event-store.ts:476-500 | When the owner and every claimant on the chain down to depth 63 are dead, no agent ever owns the lock again, however many try, over every interleaving with crashes. |
| `TakeoverLock.DeadChainIsTakeableIff` | apps/fridayd/src/event-store.ts:476-500 | The failing states behind that condition: n dead claims, one behind the other, on the lock of a dead owner can be taken over for n up to 63; from 64 on they block the store for ever. |
| `TakeoverRelease.CloseReleases` | apps/fridayd/src/event-store.ts:331-367 | From every reachable state in which a live agent owns the lock, its close leaves no lock behind and disturbs neither claims nor other agents. |
| `TakeoverRelease.CloseReleasesInTheEnd` | apps/fridayd/src/event-store.ts:349-367 | However many operations and crashes of others come between reading the lock back and unlinking it. |
| `TakeoverRelease.ClosedStoreOpens` | apps/fridayd/src/event-store.ts:369-404 | After that an agent that opens the store undisturbed can own it again. |
| `TakeoverRelease.SecondOpenFails` | apps/fridayd/src/event-store.ts:373-386 | While a live agent owns the lock, a second open fails after its third operation and has changed nothing. |
| `TakeoverRelease.LockSaysWhoOwnsIt` | apps/fridayd/src/event-store.ts:369-379 | In every reachable state the published lock of a live owner holds that owner's lock id, process id and time of opening. |
| `TakeoverRelease.ClaimsAreReleased` | apps/fridayd/src/event-store.ts:452-470 | In every reachable state each claim was left by earlier processes or is held by an agent that is taking over or died there: none is left behind by an agent that went on. |
| `EventLog.HashBindsHistory` | apps/fridayd/src/sqlite-event-store.ts:345-362 | With a collision-free hash, one hash fixes its position and the whole history before it, across two logs. |
| `EventLog.LastHashBindsLog` | apps/fridayd/src/sqlite-event-store.ts:345-362 | Two verified logs end in the same hash if and only if they are the same log. |
| `JsonlDurability.RecoveryNeverFails` | apps/fridayd/src/event-store.ts:238-271 | In every state that appends, failed writes, crashes at any byte (also inside open) and reopenings can lead to, the file recovers a verified log. |
| `JsonlDurability.RecoveredIsBetween` | apps/fridayd/src/event-store.ts:252-266 | What open recovers extends the acknowledged events and is a prefix of the attempted ones. |
| `JsonlDurability.AcknowledgedForEver` | apps/fridayd/src/event-store.ts:277-329 | An acknowledged event keeps its position in every later log, whatever crashes and power failures follow. |
| `JsonlDurability.QuarantineOnlyGrows` | apps/fridayd/src/event-store.ts:505-521 | What was put in quarantine stays there. |
| `JsonlDurability.ExposedSurvivesIff` | apps/fridayd/src/event-store.ts:238-329 | After a crash that keeps a given number of bytes, the log the callers last saw is recovered if and only if those bytes hold all of its lines. |
| `JsonlDurability.ExposedSurvivesEveryCrashIff` | apps/fridayd/src/event-store.ts:238-329 | The log the callers last saw survives whatever crash may come if and only if all of its bytes are synced. |
| `JsonlDurability.OpenIsDurableIff` | apps/fridayd/src/event-store.ts:252-263 | The log that open serves is synced if and only if open cut a partial tail off or the whole file had been synced before. |
| `JsonlDurability.DurableSinceAppend` | apps/fridayd/src/event-store.ts:307-318 | From an append that succeeded until the next open, the log is synced, whatever fails or crashes in between. |
| `JsonlDurability.DurableForEver` | apps/fridayd/src/event-store.ts:238-329 | A log that was synced once begins every later log. |
| `JsonlDurability.ExposedCanBeLost` | apps/fridayd/src/event-store.ts:252-266 | The concrete run behind that condition: an event whose append failed after its last byte is served by the next open, which does not sync it, and is gone after a power failure. |
| `SqliteHistory.MirrorAlwaysAgrees` | apps/fridayd/src/sqlite-event-store.ts:107-193 | In every run, with crashes between commit and mirror update, the list in memory is the table in order, the chain verifies, and a closed store opens. |
| `SqliteHistory.CommittedForEver` | apps/fridayd/src/sqlite-event-store.ts:137-193 | The log only grows: what was committed is the beginning of every later log. |
| `SqliteHistory.LastHashBindsTable` | apps/fridayd/src/sqlite-event-store.ts:329-362 | Two databases that open with the same last hash hold the same rows, whoever edited them and in whatever order they are stored. |
| `SqliteHistory.MigrationCarriesTheLog` | apps/fridayd/src/sqlite-event-store.ts:283-327 | The first open next to a JSONL file left in any state of its own runs carries over exactly the log that file recovers, acknowledged events included. |
| `EventContents.JsonlAppendReturnsIff` | apps/fridayd/src/event-store.ts:277-329 | In every reachable state an append whose write succeeds returns if and only if the store is open and healthy, the payload can be represented, the type is not empty, and fewer than 2^53 - 1 events are stored; the returned event has the caller's type, payload, id and time under the next number, and is the last of list and file. |
| `EventContents.JsonlEntriesAreKept` | apps/fridayd/src/event-store.ts:238-329 | Over every run the acknowledged entries, as their callers gave them and in their order, are in every later log and in what the next open recovers, whatever failures, crashes and reopenings come between. |
| `EventContents.SqliteAppendReturnsIff` | apps/fridayd/src/sqlite-event-store.ts:137-193 | The same of the SQLite store, where the entry's id must be new and the transaction must not fail; an append that throws changes no row. |
| `EventContents.SqliteEntriesAreKept` | apps/fridayd/src/sqlite-event-store.ts:107-193 | Over every run each acknowledged entry is in every later table, as given and in order. |
| `EventContents.JsonlOpensIff` | apps/fridayd/src/event-store.ts:238-271 | For any file at all open serves a log if and only if the closed lines are the texts of a whole chain, numbered from 1 on; when it throws no byte has changed. |
| `EventContents.SqliteOpensIff` | apps/fridayd/src/sqlite-event-store.ts:107-131 | For any table at all open serves its rows in order if and only if they are a whole chain. |
| `HubGuarantees.AgentLeasesAreDisjoint` | apps/fridayd/src/job-registry.ts:188-242 | All leases ever signed for an agent Job cover disjoint intervals of time. |
| `HubGuarantees.ApprovedDecisionIsInsideTheLease` | apps/fridayd/src/node-tool-policy.ts:165-183 | Whenever a decision reads APPROVED, the call's lease is its Job's current, unexpired lease. |
| `HubGuarantees.ReplacedForEver` | apps/fridayd/src/job-registry.ts:188-242 | A replaced lease id never becomes current again, and an ended Job keeps its status. |
| `HubGuarantees.ReplacedLeaseIsPowerless` | apps/fridayd/src/job-registry.ts:244-299 | Once a lease is replaced, no later event, reconciliation, tool proposal or tool approval that presents it commits anything, and it is never active. |
| `HubGuarantees.EndedJobHasNoActiveLease` | apps/fridayd/src/job-registry.ts:286-299 | Once a Job has ended, none of its leases is active again and its status never changes. |
| `HubGuarantees.EventsAreNumbered` | apps/fridayd/src/job-registry.ts:244-267 | In every reachable state a Job's stored events are numbered exactly 0..lastSequence. |
| `HubGuarantees.ResentEventChangesNothing` | apps/fridayd/src/job-registry.ts:256-263 | An accepted event sent again at any later time changes nothing. |
| `HubGuarantees.SignedR1JobWasApproved` | apps/fridayd/src/job-registry.ts:120-158 | No spec was ever signed for an R1 Job before an earlier step approved that Job. |
| `HubGuarantees.SignedAuthorizationWasGranted` | apps/fridayd/src/node-tool-policy.ts:121-183 | No authorisation was ever signed for a call above R0 before an earlier step granted that exact call digest; which tools that concerns is `ToolClearance.OnlyReadersRunUnasked`. |
| `HubGuarantees.PulledR1JobWasApproved` | apps/fridayd/src/job-registry.ts:203-219 | What a Runner pulls for an R1 Job was approved in an earlier step. |
| `JobLaws.PulledLeaseIsLive` | apps/fridayd/src/job-registry.ts:203-219 | In every reachable state a pull of the Runner's longest waiting Job succeeds under a lease that has not run out: the Job's own one while that lasts, else a new one. |
| `JobLaws.EndWasReported` | apps/fridayd/src/job-registry.ts:244-267 | Over every run a Job is SUCCEEDED or FAILED only if a stored event of its own reported so. |
| `JobLaws.LeaseHasItsTerms` | apps/fridayd/src/job-registry.ts:361-384 | Every lease ever signed runs for five minutes, and its spec for one hour, from a step of the run. |
| `ToolClearance.OnlyReadersRunUnasked` | apps/fridayd/src/node-tool-policy.ts:82-144 | Over every run, no call of a tool outside the seven reading ones was authorised before an earlier step granted that exact call. |
| `ToolClearance.ApprovedAtOnceIff` | apps/fridayd/src/node-tool-policy.ts:82-119 | A new, valid, timely call under its agent's running lease is approved at once if and only if its tool is one of the seven; otherwise it is stored as held, and its Job waits whenever the call does not throw. |
| `ToolClearance.OwnerDecides` | apps/fridayd/src/node-tool-policy.ts:121-183 | In every reachable state the Owner's approval of a held call succeeds if and only if its Job waits under its lease; it gives authority for this very call in the Owner's name for at most five minutes, or denies the call when the lease has run out. |
| `ToolClearance.DecisionReadsIff` | apps/fridayd/src/node-tool-policy.ts:152-156 | In every reachable state and at any time a decision reads APPROVED if and only if the stored authority has not run out. |
| `HubGuarantees.CallStatusMovesForward` | apps/fridayd/src/node-tool-policy.ts:82-214 | A call keeps its content, and its status only moves from held over approved to denied. |
| `HubRestart.RestartReconciles` | apps/fridayd/src/node-tool-policy.ts:185-214 | For any database at all: whenever open returns, every held call belongs to an agent Job that has not ended, under the Job's current, unexpired lease, and every agent Job held under a lease that has calls has a held call of that lease. |
| `HubRestart.HeldCallIsDecidedIff` | apps/fridayd/src/node-tool-policy.ts:121-144 | From any database a run can leave, once open returned, approving a held call approves it, or denies it under a lease that ran out meanwhile, if and only if the last row of its lease is held; otherwise approving it throws. |
| `HubRestart.HeldCallCanBeUndecidable` | apps/fridayd/src/node-tool-policy.ts:204-207 | The concrete run behind that condition: a held call, then an R0 call of the same lease, then a restart; dispatching the R0 call takes the Job out of its wait. |
| `HubRestart.OpenThrowsIffBlocked` | apps/fridayd/src/node-tool-policy.ts:185-214 | From any database a run can leave, open throws if and only if some held call's Job is WAIT_USER, UNKNOWN or RECONCILING under the call's current, unexpired lease. |
| `HubRestart.OpenCanThrow` | apps/fridayd/src/node-tool-policy.ts:113-118 | A run of four requests leaves such a database: the call is stored before holding its Job throws. |
| `ModelAccess.GrantsAreIndexedAndBounded` | apps/fridayd/src/model-access.ts:48-172 | In every run of the Hub with its broker the indexes agree one to one, and no grant outlives the lease or the spec it was issued under, nor the time to live counted from its issue. |
| `ModelAccess.FencedTokenIsNeverAuthorized` | apps/fridayd/src/model-access.ts:89-105 | Once its lease is replaced or its Job has ended, a token is never authorised again, in any later state. |
| `ModelRoutes.AuthorizedIff` | apps/fridayd/src/model-access.ts:89-105 | In every reachable state and at any time a token is authorised if and only if it is held, has not run out, its lease is active, the provider is the granted one, and the path is in its tool's own list. |
| `ModelRoutes.GrantNamesItsTarget` | apps/fridayd/src/model-access.ts:61-83 | In every reachable state each held grant is for its Job's own tool and names the provider and the model that were configured for it when it was issued. |
| `ModelRoutes.GrantIsHeld` | apps/fridayd/src/model-access.ts:48-172 | A grant is held unchanged until it runs out, its Job's grants are revoked, or the Hub starts again. |
| `ModelRoutes.IssuedIff` | apps/fridayd/src/model-access.ts:48-87 | In every reachable state a new request is granted if and only if it is timely, its lease active, its tool the Job's, an upstream configured and time left; the grant runs to the earliest of its three limits under a new token. |
| `ModelRoutes.RepeatedRequestIsAnswered` | apps/fridayd/src/model-access.ts:48-59 | While its grant runs, the same request gets the same token if and only if its lease is active, and any other request under its id gets none. |
| `CanonicalJsonProofs.CanonicalIsInjective` | apps/fridayd/src/state.ts:258-278 | Two JSON values have the same canonical text if and only if they are equal with unordered keys and ordered arrays, nested to any depth. |
| `CanonicalJsonProofs.DigestIsInjective` | apps/fridayd/src/state.ts:253-256 | So have their digests, for a digest without collisions. |
| `CanonicalJsonProofs.KeyOrderIsForgotten` | apps/fridayd/src/state.ts:270-276 | Listing the same fields in another order does not change the canonical text. |
| `JsonRoundTrip.CanonicalReadsBack` | apps/fridayd/src/state.ts:258-278 | A reader of compact JSON, written from the grammar of RFC 8259, reads canonical text back to the value that was printed, up to key order, with the keys of every object in the order of their code units. |
| `JsonRoundTrip.StringIsShortest` | apps/fridayd/src/state.ts:259-261 | No JSON text of a string is shorter than the canonical one. |
| `OutboxGuarantees.TablesActAsOneQueue` | apps/fridayd/src/channel-outbox.ts:104-193 | In every reachable state the two tables act as the one queue. |
| `OutboxGuarantees.PullReturnsTheLeast` | apps/fridayd/src/channel-outbox.ts:136-179 | In every reachable state pull returns exactly the least (createdAt, id) among the waiting or lease-expired notifications of the channel, and nothing only when there is none. |
| `OutboxGuarantees.OneLeaseAtATime` | apps/fridayd/src/channel-outbox.ts:140-170 | No notification ever has two unexpired leases. |
| `OutboxGuarantees.DeliveredOnce` | apps/fridayd/src/channel-outbox.ts:181-193 | A notification is acknowledged at most once; delivered, it is never pulled or acknowledged again. |
| `OutboxGuarantees.OnlyTheLastLeaseAcknowledges` | apps/fridayd/src/channel-outbox.ts:181-193 | Only the last lease granted for a notification acknowledges it. |
| `OutboxGuarantees.OneNotificationEach` | apps/fridayd/src/channel-outbox.ts:104-134 | An ended Job has at most one notification, and so has a held call. |
| `OutboxGuarantees.DrainsInOrder` | apps/fridayd/src/channel-outbox.ts:136-193 | Alternating pull and acknowledge drains n undelivered notifications in exactly n rounds, in (createdAt, id) order, each with its own content. |
| `OutboxGuarantees.ChannelDrains` | apps/fridayd/src/channel-outbox.ts:136-193 | So it does from every reachable state without a running lease on the channel. |
| `OutboxLaws.PulledAs` | apps/fridayd/src/channel-outbox.ts:136-179 | In every reachable state a pulled notification says what its row says; its row is leased for one minute under the given id and counted as one more attempt, and of the others exactly the run-out leases of the channel wait again. |
| `OutboxLaws.AcknowledgedIff` | apps/fridayd/src/channel-outbox.ts:181-193 | In every reachable state an acknowledgement is taken if and only if that notification of the channel is leased under this id, and then changes nothing but its status. |
| `OutboxLaws.JobsOwnRecipientIsTold` | apps/fridayd/src/channel-outbox.ts:92-118 | Over every run the notification of an ended Job goes to the recipient the Job is bound to. |
| `OutboxLaws.OldestIsPulled` | apps/fridayd/src/channel-outbox.ts:136-179 | In every reachable state a pull returns the oldest notification of the channel that is neither delivered nor leased, by id among equally old ones, and nothing if and only if there is none. |
| `NotificationText.TerminalTextIsRefusedIff` | apps/fridayd/src/channel-outbox.ts:269-303 | The text of an ended Job is always visible and short enough; the outbox refuses it if and only if a NUL lies in the part of the message that is not cut off. |
| `NotificationText.ClearanceIsAccepted` | apps/fridayd/src/channel-outbox.ts:244-259 | The text that asks for a held call is accepted whenever the call's reason holds no NUL, which the policy demands of every call. |
| `TextLaws.TerminalSays` | apps/fridayd/src/channel-outbox.ts:269-278 | An ended Job's text is the heading of its status and, when its events said anything, what they said, one below the other in order, without the white space around; cut at 14 KiB. |
| `TextLaws.HeldCallIsAskedAbout` | apps/fridayd/src/channel-outbox.ts:244-259 | The Owner is asked about this very call with its reason quoted; an R3 call is only ever to be decided in the Web console. |
| `TextLaws.ReasonIsShown` | apps/fridayd/src/channel-outbox.ts:280-284 | A reason of up to 140 UTF-16 units is shown whole; a longer one is its longest cut that leaves room, and an ellipsis. |
| `JobChannelNotifier.ReconcileLeavesNoneMissing` | apps/fridayd/src/channel-outbox.ts:211-266 | reconcile leaves no ended, bound Job without a notification if and only if no missing one's message shows a NUL in the part that is not cut off, and then counts them exactly; otherwise it throws. |
| `JobChannelNotifier.ThrowsAgain` | apps/fridayd/src/channel-outbox.ts:262-266 | When reconcile throws, it throws again at the next start, although the Jobs before the refused one got their notification. |
| `HubStart.StartsIff` | apps/fridayd/src/server.ts:592-662 | From any database a run of the Hub can leave, next to any outbox: opening the node tool policy, reconciling the notifications and asking for the held calls all succeed if and only if no held call is blocked and no bound, ended Job without notification shows a NUL. |
| `HubStart.StartedHubIsInOrder` | apps/fridayd/src/server.ts:592-662 | When they succeed, no call is orphaned, no hold is stuck, every bound Job that ended has its notification, and so has every held call of a bound Job. |
| `HubStart.StaysDown` | apps/fridayd/src/server.ts:657-659 | A Hub that a text kept from starting stays down: the next start throws as well. |
| `HubStartRuns.BareNulKeepsTheHubDown` | apps/fridayd/src/server.ts:657-659 | A run of four requests after which the start throws: a Job reports a NUL and succeeds. |
| `HubStartRuns.LateNulDoesNot` | apps/fridayd/src/channel-outbox.ts:286-303 | The same run with the NUL behind 14 KiB of output: the Hub starts and the Job has its notification. |
| `FridayState.FlagsOnlyDecideLiveness` | apps/fridayd/src/state.ts:87-176 | For any events and any choice of live flags, two folds throw alike or give the same jobs, digests, envelope index and Runner records once status, activeJobs and liveness are erased. |
| `FridayState.ReplayedRunnersAreOffline` | apps/fridayd/src/state.ts:87-98 | After a replay the Owner is shown every Runner as offline at any time, with its status and active Jobs erased. |
| `FridayLaws.RunnersShowTheirLastWord` | apps/fridayd/src/state.ts:100-166 | In every reachable state of a running Hub each Runner's record shows the last event the log has of it, live or replayed, and describes it as it registered last; a Runner the log does not name is not known. |
| `FridayLaws.ShownOnlineIff` | apps/fridayd/src/state.ts:183-209 | A Runner is shown online if and only if it was heard of since the start and within the last 45 seconds; offline its status and active Jobs are hidden, and nothing else. |
| `FridayLaws.EachMessageHasItsJob` | apps/fridayd/src/server.ts:2380-2475 | In every reachable state of a running Hub the accepted messages are exactly those that some Job names. |
| `HubLog.ReplaysIffSupported` | apps/fridayd/src/server.ts:2313-2475 | A log that the Hub's own handlers wrote, across restarts and crashes between append and apply, replays if and only if it holds no job.policy.approved and no job.stop.requested event. |
| `HubLog.ReplayAgreesWithLiveRun` | apps/fridayd/src/state.ts:87-176 | When it replays, the replayed state is the live one up to liveness. |
| `HubLog.HandlersNeverThrow` | apps/fridayd/src/server.ts:2380-2475 | What the handlers' guards let through, apply accepts, except those two event types. |
| `HubLog.LogNamesEachOnce` | apps/fridayd/src/server.ts:2313-2475 | No message and no envelope is in the log twice, whatever is sent again, across restarts. |
| `HubLog.NeverStartsAgain` | apps/fridayd/src/server.ts:820 | Once one of the two types is in the log, a Hub that goes down never starts again. |
| `SelfPatchGuarantees.ReadingNeverThrows` | apps/fridayd/src/m3-registry.ts:629-664 | The stored manifest always matches its digest, so reading an improvement never throws. |
| `SelfPatchGuarantees.AdoptedNeedsNoClearance` | apps/fridayd/src/m3-registry.ts:529-543 | In every reachable state an ADOPTED improvement has no action that needs clearance. |
| `SelfPatchGuarantees.ClearedMeansGranted` | apps/fridayd/src/m3-registry.ts:577-620 | CLEARED, CANARY, DEPLOYED and ROLLED_BACK of an improvement imply a granted clearance at the derived risk, over exactly what is stored. |
| `SelfPatchGuarantees.ManifestIsFrozen` | apps/fridayd/src/m3-registry.ts:801-825 | Every field that a clearance covers is frozen from the request on. |
| `SelfPatchGuarantees.GrantPrecedesCanary` | apps/fridayd/src/m3-registry.ts:577-608 | No improvement gets past clearance before an earlier step of the run granted it. |
| `SelfPatchGuarantees.AtMostFiveTransitions` | apps/fridayd/src/m3-registry.ts:841 | Over any run a patch changes its state at most five times. |
| `SelfPatchGuarantees.OpenFinishesAdoption` | apps/fridayd/src/m3-registry.ts:462-472 | After a crash between the two commits of a low-risk completion, open, which walks every tested improvement in any order, makes the missing one and leaves none waiting. |
| `SelfPatchGuarantees.OpenAdoptsTheListed` | apps/fridayd/src/m3-registry.ts:466-472 | open never throws, adopts exactly the low-risk improvements that are TESTED, and changes nothing else. |
| `SelfPatchGuarantees.TestIsCompletedOnce` | apps/fridayd/src/m3-registry.ts:529-537 | The same evidence sent again at any later time changes nothing, unless the improvement failed since. |
| `SelfPatchGuarantees.JobImprovementIsCreatedOnce` | apps/fridayd/src/m3-registry.ts:482-496 | The same request from the same Job later finds its improvement and changes nothing. |
| `SelfPatchGuarantees.NormalizationIsIdempotent` | apps/fridayd/src/m3-registry.ts:718-752 | A valid proposal, normalised and listed in any order, is valid again and normalising it adds nothing, so creating an improvement from it is creating it from the original. |
| `SelfPatchLaws.TestFinishes` | apps/fridayd/src/m3-registry.ts:529-543 | In every reachable state finishing a draft's test stores the evidence first and then asks the Owner if an action is material, at the weight of its actions and over what is stored, or adopts. |
| `SelfPatchLaws.TestFinishesAgain` | apps/fridayd/src/m3-registry.ts:529-543 | Finishing again with the same evidence does what a crash left undone and else nothing; other evidence is refused. |
| `SelfPatchLaws.ClearanceIsAskedIff` | apps/fridayd/src/m3-registry.ts:552-576 | In every reachable state clearance is asked if and only if the improvement is TESTED and an action is material; its manifest describes exactly what is stored, under a new id. |
| `SelfPatchLaws.GrantedIff` | apps/fridayd/src/m3-registry.ts:577-596 | In every reachable state a grant succeeds if and only if this clearance is pending, and notes the Owner and the time. |
| `SelfPatchLaws.CanaryStartsIff` | apps/fridayd/src/m3-registry.ts:597-608 | In every reachable state a canary starts if and only if the improvement is cleared under this clearance. |
| `SelfPatchLaws.CanaryFinishesIff` | apps/fridayd/src/m3-registry.ts:613-620 | In every reachable state exactly a running canary is deployed or rolled back. |
| `SelfPatchLaws.ReadIsIntact` | apps/fridayd/src/m3-registry.ts:629-664 | Whatever the tables hold, what is read of an improvement under clearance is what its manifest says, field by field. |
| `ConversationGuarantees.AtMostFiveModelCalls` | apps/fridayd/src/conversation-orchestrator.ts:166-260 | However often a message is submitted, across duplicates, retries and crashes, the model is asked at most five times for it. |
| `ConversationGuarantees.OneTurnPerMessage` | apps/fridayd/src/conversation-registry.ts:151-193 | A message of a channel has at most one turn. |
| `ConversationGuarantees.OneJobPerTurn` | apps/fridayd/src/job-registry.ts:120-143 | At most one Job ever carries a turn's id, whoever created it. |
| `ConversationGuarantees.TurnNamesItsJob` | apps/fridayd/src/conversation-orchestrator.ts:285-299 | A turn that names a Job names the one Job of its id, created for its own proposal. |
| `ConversationGuarantees.JobIdNeverChanges` | apps/fridayd/src/conversation-registry.ts:257-277 | Once a turn names a Job it names that Job for ever; its message and proposal never change. |
| `ConversationGuarantees.BoundForEver` | apps/fridayd/src/self-improvement-coordinator.ts:66-87 | Over any run a binding is neither undone nor changed, it belongs to a Job that exists, and no two Jobs are bound to one improvement. |
| `ConversationGuarantees.NamedJobIsBound` | apps/fridayd/src/server.ts:824-869 | A self-improvement turn names a Job only if that Job is bound to the turn's own improvement with the turn's metadata. |
| `ConversationGuarantees.FirstSchedulingReportsIff` | apps/fridayd/src/server.ts:787-869 | In every reachable state a first scheduling creates the Job, and reports it, under exact conditions; in the one case that it creates the Job and reports an error, the improvement is already bound to another Job. |
| `ConversationGuarantees.PolicyApprovalIsReportedIff` | apps/fridayd/src/server.ts:818-822 | In every reachable state the approval by policy, which waited for the event log, reports the Job if and only if nobody has approved or stopped it meanwhile; otherwise the turn is told of an error though its Job exists. |
| `ConversationGuarantees.RetryRecordsTheJobIff` | apps/fridayd/src/conversation-orchestrator.ts:166-174 | A turn names no Job although its Job exists. The message sent again records that very Job if and only if no refusal can be read from the tables before: for a self-improvement the workspace must be the configured one, and the Job bound to this turn's metadata or else unbound and waiting, with the improvement bound to no other Job. No Job is created in either case, and a refusal changes nothing but the turn's error. |
| `ConversationGuarantees.SchedulingAgainAddsNoJob` | apps/fridayd/src/conversation-orchestrator.ts:285-299 | Scheduling such a turn again creates no Job, wherever it fails on the way. |
| `ConversationGuarantees.StrandedForEver` | apps/fridayd/src/self-improvement-coordinator.ts:71-80 | When the Job of a self-improvement turn has ended unbound, the turn never names it, whatever happens later, and every later retry records a refusal. |
| `ConversationFailures.RefusedForEverCanHappen` | apps/fridayd/src/server.ts:863-864 | A run after which every retry is refused though the Job exists: the Hub dies between creating the Job and registering it, and the Owner then stops the Job. |
| `ConversationFailures.ErrorThoughTheJobRuns` | apps/fridayd/src/server.ts:818-822 | A run in which the Owner approves a Job while its submission waits for the event log: an error is recorded though the Job is dispatched, and a retry records the Job. |
| `ConversationLaws.AnswerDecides` | apps/fridayd/src/conversation-orchestrator.ts:188-283 | In every reachable state an answer decides how its turn goes on: a failure fails it under its code, a reply or proposal is stored as given, and a tool is called up to four times. |
| `ConversationLaws.NamedJobDoesWhatWasProposed` | apps/fridayd/src/server.ts:787-869 | Over every run the Job a turn names has the turn's id for key, and the workspace, tool, operation and prompt that were proposed; a self-improvement develops. |
| `ConversationLaws.BoundAsProposed` | apps/fridayd/src/server.ts:824-864 | Over every run the Job a self-improvement turn names is bound under the turn's own id with the proposed metadata. |
| `ConversationLaws.PolicyActsIff` | apps/fridayd/src/server.ts:818-822 | In every reachable state the policy comes to approve a Job if and only if that is configured and the reported Job is an R1 Job of a sandboxed tool that waits. |
| `ConversationLaws.ReportedImprovementGoesAhead` | apps/fridayd/src/server.ts:855-864 | A self-improvement Job that is reported does not wait: if it did, it has been approved just now, under a new lease of five minutes. |
| `Framing.ChunkingDoesNotMatter` | apps/fridayd/src/pi-worker-client.ts:232-266 | However a stream without CR is cut into chunks, the client dies or not alike and at the same records, and alive it is in the same state. |
| `Framing.RecordsAreTheLines` | apps/fridayd/src/pi-worker-client.ts:232-266 | While the client lives, the dispatched records are the lines of the stream, one each, in order, and the buffer is the text after the last newline. |
| `Framing.DiesIff` | apps/fridayd/src/pi-worker-client.ts:232-266 | The client dies if and only if the stream holds a CR, a line that is refused, or a rest that is too long, whatever the chunks. |
| `FramingLaws.TurnFollowsTheStream` | apps/fridayd/src/pi-worker-client.ts:232-294 | While the client lives, its turn's text and outcome are those that the records of the whole stream decide, however it was cut. |
| `FramingLaws.FirstSettleDecides` | apps/fridayd/src/pi-worker-client.ts:279-294 | Records decide nothing until the session first settles; then its last text up to there is the reply if it is not blank and has at most 64 KiB, and else the turn has failed. |
| `TextChunks.ChunksSplitIffEachFits` | apps/channel-gateway/src/channel-adapters.ts:77-87 | The chunks concatenate to the text, none empty and each within the limit, if and only if every single character fits; every limit of at least 4 bytes is enough. |
| `TextChunks.NarrowLimitSplitsBadly` | apps/channel-gateway/src/channel-adapters.ts:77-87 | The input behind that condition: one character of three bytes under a limit of two gives an empty chunk and one over the limit. |
| `TextChunks.AnySplitNeedsRoom` | apps/channel-gateway/src/channel-adapters.ts:77-87 | When some character does not fit, no split within the limit exists at all. |
| `TextChunks.ChunksAreFewest` | apps/channel-gateway/src/channel-adapters.ts:77-87 | No other split into consecutive pieces within the limit uses fewer chunks. |
| `TakeoverLock.ChainIsLinear` | apps/fridayd/src/event-store.ts:476-496 | The claim paths of one generation form a single line: of two reachable paths one is an ancestor of the other. |
| `TakeoverLock.AncestorIsDead` | apps/fridayd/src/event-store.ts:476-496 | Every claim passed on the way to a path is still there and its claimant is dead. |
| `TakeoverLock.ChainIsStable` | apps/fridayd/src/event-store.ts:476-496 | A path that was reached stays reachable as long as the claims under it stay and dead processes stay dead. |
| `TakeoverLock.DiskRespects` | apps/fridayd/src/event-store.ts:369-503 | No agent's next file operation disturbs what another live agent relies on. |
| `TakeoverLock.NextKeepsInv` | apps/fridayd/src/event-store.ts:369-503 | Every event (a file operation, a start, a close, giving up, a crash) keeps the protocol's invariant; what a close releases is said by `TakeoverRelease.CloseReleases`. |
| `TakeoverRelease.AbortedTriesAgain` | apps/fridayd/src/event-store.ts:420-470 | A takeover that found something changed unlinks its own claim, and the agent tries again. |
| `TakeoverRelease.TriesAgain` | apps/fridayd/src/event-store.ts:380-414 | An agent that finds a live claimant, or the lock gone, tries again from the start. |
| `TakeoverRelease.OwnerStays` | apps/fridayd/src/event-store.ts:369-503 | An owner stays the owner until it closes or dies, and one that closes keeps its lock until its next operation, whatever others do. |
| `TakeoverRelease.CloseSparesOtherLocks` | apps/fridayd/src/event-store.ts:498-503 | A lock that is not the agent's own is left alone by its close. |
| `EventLog.AppendKeepsVerified` | apps/fridayd/src/event-store.ts:286-305 | Appending the next event to a verified log gives a verified log. |
| `EventLog.ListIsSuffix` | apps/fridayd/src/event-store.ts:273-275 | On a verified log list(afterSequence) is the suffix from that sequence on. |
| `JsonlDurability.CutFlat` | apps/fridayd/src/event-store.ts:252-262 | A file cut at any byte still holds the whole lines of a prefix of the log, and a tail without newline. |
| `JsonlDurability.AppendAcknowledges` | apps/fridayd/src/event-store.ts:307-328 | Corollary: The event that append returns is the last of the log and counts as acknowledged. |
| `JsonlDurability.OpenKeepsEveryByte` | apps/fridayd/src/event-store.ts:252-263 | Corollary: The file that open finds is the file it keeps plus the tail it puts in quarantine, byte for byte. |
| `SqliteStore.OrderedKeepsRows` | apps/fridayd/src/sqlite-event-store.ts:329-334 | Reading in sequence order neither loses, adds nor changes a row. |
| `SqliteStore.VerifiedIsOrdered` | apps/fridayd/src/sqlite-event-store.ts:329-334 | The rows of a verified log are in order already. |
| `SqliteStore.VerifiedLogInserts` | apps/fridayd/src/sqlite-event-store.ts:302-326 | A verified log goes into an empty table if and only if its event ids are distinct, and then whole. |
| `EventContents.JsonlFailedWrite` | apps/fridayd/src/event-store.ts:307-328 | A failed write is not acknowledged, leaves the list alone, and no later append is made before the next open. |
| `HubRuns.NextIsGood` | apps/fridayd/src/node-tool-policy.ts:82-214 | Every operation of the Hub, complete or cut short by a crash between two of its commits, keeps the invariant over Jobs, leases, events and calls, and takes nothing back. |
| `HubRuns.RunAllIsGood` | apps/fridayd/src/job-registry.ts:120-310 | So does every run of such operations and restarts under a clock that does not go back. |
| `HubGuarantees.ApprovalWasGiven` | apps/fridayd/src/job-registry.ts:145-158 | What a run counts as approved was approved by a step of that run. |
| `JobLaws.NewKeyMakesAJob` | apps/fridayd/src/job-registry.ts:120-143 | A new key gets a new Job as requested: an agent Job dispatched under a fresh lease, any other waiting for approval. |
| `JobLaws.UsedKeyAnswers` | apps/fridayd/src/job-registry.ts:120-143 | A used key answers with its Job for the same Runner and request, refuses any other, and changes nothing. |
| `JobLaws.ApprovedIff` | apps/fridayd/src/job-registry.ts:145-158 | Exactly the R1 Jobs that wait are approved, under a lease nobody has seen. |
| `JobLaws.HeldIff` | apps/fridayd/src/job-registry.ts:160-174 | A call holds its Job if and only if the Job is its agent's, under its current running lease, and dispatched, running or held. |
| `JobLaws.ReleasedIff` | apps/fridayd/src/job-registry.ts:176-186 | An approved call releases its held Job if and only if the lease still runs. |
| `JobLaws.ReleasedAfterDenialIff` | apps/fridayd/src/job-registry.ts:188-201 | A denied call releases its held Job in any case, under a new lease when the old one has run out. |
| `JobLaws.RecoveredAs` | apps/fridayd/src/job-registry.ts:221-242 | What a Runner that comes back is told of its agent Job, in every reachable state, and what becomes of it. |
| `JobLaws.EventIsTakenIff` | apps/fridayd/src/job-registry.ts:244-267 | A new event is taken if and only if it is the next one under the current lease, its id is new and the move it reports is possible, read from the table of what may precede each state; then it is stored and the Job is where it says. |
| `JobLaws.EventIsKnownIff` | apps/fridayd/src/job-registry.ts:256-260 | An event is recognised if and only if it is the stored one under the current lease; it changes nothing. |
| `JobLaws.MovesAreListed` | apps/fridayd/src/job-registry.ts:431 | The transition table, read backwards: from which states each state may be reported. |
| `JobLaws.ReconciledIff` | apps/fridayd/src/job-registry.ts:269-284 | A Runner that lost track reconciles if and only if it presents the current lease before it has run out. |
| `JobLaws.CancelledIff` | apps/fridayd/src/job-registry.ts:301-310 | A Job is cancelled if and only if it has not ended. |
| `ToolClearance.RiskIsListed` | apps/fridayd/src/node-tool-policy.ts:222-228 | Each tool has exactly the risk under which it is listed. |
| `ToolClearance.ReaderIsApproved` | apps/fridayd/src/node-tool-policy.ts:107-112 | A reading call gets authority for itself in the policy's name, and is stored as it came; the Job goes on. |
| `ToolClearance.OtherCallIsHeld` | apps/fridayd/src/node-tool-policy.ts:113-118 | Any other call is stored before its Job is held; it throws if and only if the Job cannot wait. |
| `ToolClearance.UnavailableIsDenied` | apps/fridayd/src/node-tool-policy.ts:101-106 | A call of a tool the Runner lacks is stored as denied. |
| `ToolClearance.StoredIff` | apps/fridayd/src/node-tool-policy.ts:82-119 | A new call is stored if and only if its reason is valid, it is timely, and its agent's Job has not ended under its lease. |
| `ToolClearance.RepeatedCallIsAnswered` | apps/fridayd/src/node-tool-policy.ts:94-100 | A call sent again is answered by what is stored, which stays as it is; other content under its id is refused. |
| `ToolClearance.DecidedCallIsAnswered` | apps/fridayd/src/node-tool-policy.ts:94-100 | A decided call sent again under its active lease is always answered. |
| `HubRestart.HeldJobWaitsIff` | apps/fridayd/src/node-tool-policy.ts:188-213 | Not every such Job waits: whenever open returns, the Job of a held call waits for approval if and only if the last row of the call's lease, in the order of the query, is a held one. |
| `HubRestart.DispatchNeverThrows` | apps/fridayd/src/node-tool-policy.ts:205-207 | Corollary: The dispatch inside the restart loop never throws. |
| `ModelAccess.OneTokenPerRequest` | apps/fridayd/src/model-access.ts:48-87 | Corollary: One request id of a Runner never has two tokens. |
| `ModelAccess.WithoutKeepsAgreement` | apps/fridayd/src/model-access.ts:140-172 | Corollary: Dropping any set of grants keeps the two indexes in one-to-one agreement. |
| `ModelAccess.RevokeLeavesNone` | apps/fridayd/src/model-access.ts:140-146 | Corollary: After revokeJob neither index has a grant of that Job, and every other grant is kept. |
| `ModelAccess.FreshGrantIsBounded` | apps/fridayd/src/model-access.ts:66-86 | Corollary: A fresh grant is given under the active lease and expires no later than the TTL, the lease and the spec. |
| `ModelRoutes.RevokedIsNotHeld` | apps/fridayd/src/model-access.ts:140-146 | Corollary: A revocation or a start of the Hub ends the tokens at once. |
| `JsonRoundTrip.StringReadsBack` | apps/fridayd/src/state.ts:259-261 | A string literal reads back as its string, whatever follows. |
| `JsonRoundTrip.NumberReadsBack` | apps/fridayd/src/state.ts:262-267 | An integer reads back before whatever may follow a value. |
| `JsonRoundTrip.EscapeIsShort` | apps/fridayd/src/state.ts:259-261 | A code unit is escaped only where it must be, in the two-character form where there is one, else with lower-case digits. |
| `JsonRoundTrip.SortedKeysAreInOrder` | apps/fridayd/src/state.ts:270-276 | Sorted keys are in order: the first code unit that differs decides, or else the length. |
| `CanonicalJsonProofs.Readable` | apps/fridayd/src/state.ts:258-278 | Unique readability: two values whose texts agree with any delimited continuation are equal up to key order, and so are the continuations. |
| `CanonicalJsonProofs.EquivPrintAlike` | apps/fridayd/src/state.ts:258-278 | Equal values print alike. |
| `CanonicalJsonProofs.QuotedReadable` | apps/fridayd/src/state.ts:259-261 | String literals are uniquely readable, with surrogate pairs raw and lone surrogates and control codes escaped; that they are the right text of the string is `JsonRoundTrip.StringReadsBack`. |
| `CanonicalJsonProofs.NumberReadable` | apps/fridayd/src/state.ts:262-267 | Integers are uniquely readable before a delimiter. |
| `CanonicalJsonProofs.SameKeysSameSort` | apps/fridayd/src/state.ts:272-273 | Sorting by code units depends on the set of keys only. |
| `ChannelOutbox.First` | apps/fridayd/src/channel-outbox.ts:152-159 | The selected row of one table is ready and no ready row is earlier; none is selected only when none is ready. |
| `OutboxQueue.PullRefines` | apps/fridayd/src/channel-outbox.ts:136-179 | pull on the two tables is pull on one queue keyed by notification id. |
| `OutboxQueue.AcknowledgeRefines` | apps/fridayd/src/channel-outbox.ts:181-193 | acknowledge on the two tables is acknowledge on the one queue, and succeeds if and only if the queue holds that lease. |
| `OutboxQueue.InsertRefines` | apps/fridayd/src/channel-outbox.ts:104-134 | Enqueueing in either table adds one item to the one queue. |
| `OutboxQueue.PullIsDetermined` | apps/fridayd/src/channel-outbox.ts:152-159 | Corollary: The queue alone determines what a pull returns and leaves. |
| `OutboxLaws.DrainedOldestFirst` | apps/fridayd/src/channel-outbox.ts:136-193 | Corollary: An idle channel is drained oldest first. |
| `OutboxLaws.BoundIff` | apps/fridayd/src/channel-outbox.ts:92-102 | A Job is bound to its first recipient for good. |
| `OutboxLaws.TerminalIsAddedIff` | apps/fridayd/src/channel-outbox.ts:104-118 | An ended Job's notification is added if and only if its text can be read, it is bound and it has none; the new row carries that text to that recipient. |
| `OutboxLaws.ClearanceIsAddedIff` | apps/fridayd/src/channel-outbox.ts:120-134 | So is a held call's, to its Job's recipient. |
| `OutboxLaws.ReadableIff` | apps/fridayd/src/channel-outbox.ts:303 | A text is accepted if and only if it shows something, has at most 14 KiB and no NUL. |
| `NotificationText.NulComesFromAnEvent` | apps/fridayd/src/channel-outbox.ts:269-278 | The message holds a NUL if and only if an output or error event of the Job does. |
| `TextLaws.TrimIsCore` | apps/fridayd/src/channel-outbox.ts:273-274 | Trimming cuts off exactly the white space at both ends. |
| `TextLaws.CollapseKeepsWords` | apps/fridayd/src/channel-outbox.ts:281 | Collapsing keeps the visible characters in order and leaves single blanks only. |
| `TextLaws.LengthIsUnits` | apps/fridayd/src/channel-outbox.ts:280-284 | The length of a reason is its number of UTF-16 code units, where a character beyond the first plane takes a surrogate pair. |
| `Utf8Laws.SizeIsOctets` | apps/fridayd/src/channel-outbox.ts:286-296 | A character counts as many bytes as its UTF-8 encoding has octets, where a lone surrogate is U+FFFD; the encoding reads back. |
| `Utf8Laws.ByteLengthIsEncoded` | apps/fridayd/src/channel-outbox.ts:286-296 | The byte length of a text is the length of its encoding. |
| `JobChannelNotifier.ReconcileRepairs` | apps/fridayd/src/channel-outbox.ts:262-266 | Each listed Job gets its one notification up to the first whose text is refused, and no other Job does. |
| `HubStart.ListEventsIsComplete` | apps/fridayd/src/job-registry.ts:352-359 | In every reachable state listEvents gives each stored event of the Job, in order, and no other. |
| `FridayLaws.MessageAppliesIff` | apps/fridayd/src/state.ts:101-109 | A message event is applied if and only if its Job names it and it is new. |
| `FridayLaws.RegistrationApplies` | apps/fridayd/src/state.ts:111-138 | A new registration is applied if and only if it claims no shell; the record is what it says. |
| `FridayLaws.HeartbeatApplies` | apps/fridayd/src/state.ts:140-166 | A new heartbeat is applied if and only if its Runner is registered and it does not go back in time. |
| `FridayLaws.KnownEnvelope` | apps/fridayd/src/state.ts:212-229 | A known envelope id passes the same envelope over and refuses another one. |
| `FridayLaws.OtherEvents` | apps/fridayd/src/state.ts:168-180 | Audit events change nothing, and any other type is refused. |
| `FridayLaws.MessageIsLetThroughIff` | apps/fridayd/src/server.ts:2380-2475 | The handler takes a message if and only if no Job was made for it, and logs a new Job that names it. |
| `FridayLaws.EnvelopeIsLetThroughIff` | apps/fridayd/src/server.ts:2313-2378 | The handler takes an envelope if and only if it is sound, new and sent within five minutes of its receipt, and a heartbeat only from a registered Runner in order. |
| `HubLog.StopTaskThenRestartFails` | apps/fridayd/src/server.ts:1013 | Corollary: Stopping a single task is enough for that. |
| `SelfPatchRuns.RunIsGood` | apps/fridayd/src/m3-registry.ts:475-673 | Every run, with crashes between two commits of one call, keeps the invariant and takes nothing back. |
| `SelfPatchGuarantees.NormalizationOnlyEscalates` | apps/fridayd/src/m3-registry.ts:718-799 | Corollary: Normalising never lowers the risk nor drops the need for clearance, and escalates by category and by what the scan detects. |
| `SelfPatchLaws.TamperedIsRefused` | apps/fridayd/src/m3-registry.ts:629-664 | A mismatch is refused by reading and by every call that asks for the improvement. |
| `SelfPatchLaws.RiskIsWeight` | apps/fridayd/src/m3-registry.ts:780-799 | By a weight for each action: clearance is needed for any that is not harmless, at R3 for any that is critical. |
| `SelfPatchLaws.ActionsAre` | apps/fridayd/src/m3-registry.ts:718-752 | A normalised action was proposed, is test or rollback, comes with the category, or was detected. |
| `SelfPatchLaws.ImprovementIsCreatedIff` | apps/fridayd/src/m3-registry.ts:497-527 | An improvement is stored if and only if patch and proposal are valid, its id is new and its Job has no other one; both rows hold what was given. |
| `SelfPatchLaws.FromJobIff` | apps/fridayd/src/m3-registry.ts:482-496 | Asked again for a Job the registry answers if and only if it is the same improvement. |
| `SelfPatchLaws.PatchIsCreatedIff` | apps/fridayd/src/m3-registry.ts:475-478 | A plain patch is stored as a draft if and only if it is valid and its id new. |
| `SelfPatchLaws.TestIsRecordedIff` | apps/fridayd/src/m3-registry.ts:528 | Exactly a draft becomes TESTED, with the evidence. |
| `SelfPatchLaws.FailsIff` | apps/fridayd/src/m3-registry.ts:621 | Exactly a draft, a tested patch or a canary fails. |
| `SelfPatchLaws.PlainApprovalIsAskedIff` | apps/fridayd/src/m3-registry.ts:544-547 | In every reachable state exactly a tested plain patch comes to wait, at the risk given. |
| `SelfPatchLaws.PlainCanaryIsAllowedIff` | apps/fridayd/src/m3-registry.ts:548-551 | In every reachable state exactly a waiting plain patch gets its canary, and only at the risk it waits for. |
| `SelfPatchLaws.PlainCanaryEndsIff` | apps/fridayd/src/m3-registry.ts:609-612 | In every reachable state exactly a plain canary is deployed; it, or a waiting patch, is rolled back. |
| `ConversationRuns.NextIsGood` | apps/fridayd/src/conversation-orchestrator.ts:166-299 | Every step of the interleaved submissions, the Hub and its restarts keeps the invariant of turns, model calls and Jobs. |
| `ImprovementJobs.RegisterBindsOnce` | apps/fridayd/src/self-improvement-coordinator.ts:66-87 | A binding is made once and kept, before its Job may run, and no improvement gets two Jobs. |
| `ConversationScheduling.ScheduleIsSound` | apps/fridayd/src/server.ts:787-869 | A callback that reports a Job reports the one Job of that key, for that very request, also when it failed on the way. |
| `ConversationScheduling.ExistingJobIsReported` | apps/fridayd/src/server.ts:797-859 | A proposal whose Job exists is reported as that Job or refused; which of the two, and with which code, is read from the tables before, and a refusal changes no table. |
| `ConversationScheduling.ExistingJobStaysTheOnly` | apps/fridayd/src/server.ts:797-859 | Wherever the callback stops, no Job is created for such a proposal and no event appended. |
| `ConversationScheduling.NewJobIsReported` | apps/fridayd/src/server.ts:797-869 | Without a Job of its key: a Job is created if and only if a Runner, the prompt's length, the workspace and the patch registry allow it, and it is reported unless another Job is bound to the improvement. |
| `ConversationScheduling.PolicyReportsIff` | apps/fridayd/src/server.ts:818-822 | The approval by policy reports the Job if and only if it still waits; otherwise only the event has been appended. |
| `ConversationBindings.NextKeepsBindings` | apps/fridayd/src/self-improvement-coordinator.ts:66-87 | Every step of a run only adds bindings, for Jobs that exist and that may be bound, one per improvement; a self-improvement turn and its submission name bound Jobs only. |
| `ConversationLaws.ObstacleIsReported` | apps/fridayd/src/server.ts:797-869 | A first scheduling reports the first obstacle under its code and writes nothing, or creates the Job for the selected Runner. |
| `ConversationLaws.AcceptedAs` | apps/fridayd/src/conversation-registry.ts:151-193 | A message is new, a duplicate of the very same one, or a conflict; only a new one is stored. |
| `ConversationLaws.RepairedAs` | apps/fridayd/src/conversation-registry.ts:131-139 | After a crash exactly the queued and thinking turns have failed, as interrupted. |
| `ConversationLaws.TurnMovesOn` | apps/fridayd/src/conversation-registry.ts:195-289 | A turn thinks only after it was queued, is replied or gets a proposal only while it thinks, and fails only before either; nothing else of it changes. |
| `ConversationLaws.ResultIsRecorded` | apps/fridayd/src/conversation-registry.ts:257-277 | A scheduling result is recorded of a proposed turn only, as its Job or its error, never both. |
| `ConversationLaws.RegisteredIff` | apps/fridayd/src/self-improvement-coordinator.ts:66-87 | A Job is registered if and only if it has this binding already, or is an unbound, waiting R1 develop Job of a sandboxed tool, for an improvement without a Job. |
| `Framing.SplitRejoins` | apps/fridayd/src/pi-worker-client.ts:238-242 | The split of a stream at newlines loses nothing, and its parts hold no newline. |
| `Framing.LoopHandlesTheLines` | apps/fridayd/src/pi-worker-client.ts:238-262 | The loop over the buffer handles exactly the lines of the split, in order, up to the first refused one. |
| `FramingLaws.LineIsHandledIff` | apps/fridayd/src/pi-worker-client.ts:240-262 | A line is handled if and only if it is not empty, has at most 16 MiB, and is an event or the response to an open request. |
| `FramingLaws.HandledLine` | apps/fridayd/src/pi-worker-client.ts:268-294 | A response closes its own request and no other; an event closes none. |
| `FramingLaws.TerminatedAs` | apps/fridayd/src/pi-worker-client.ts:296-309 | Terminating rejects every open request, and the turn unless it was decided before. |
| `TruncateUtf8.TruncatedIsCut` | apps/fridayd/src/channel-outbox.ts:286-296 | A text that fits is kept; any other becomes its longest prefix of whole characters that leaves room for the suffix, and the suffix; the result fits if and only if the text or the suffix does. |
| `EventLog.Verify` | apps/fridayd/src/event-store.ts:545-562 | The loop returns exactly the first fault of the chain, and none if and only if every event carries its position, its predecessor's hash and its own content hash. |
| `JsonlStore.JsonlEventStore.constructor` | apps/fridayd/src/event-store.ts:233-236 | A new store is closed and healthy, over the file it is given. |
| `JsonlStore.JsonlEventStore.OpenFile` | apps/fridayd/src/event-store.ts:238-271 | open recovers the complete lines, verifies them before touching the file, and only then puts a partial tail in quarantine and truncates; a failing open changes no file. |
| `JsonlStore.JsonlEventStore.AppendEvent` | apps/fridayd/src/event-store.ts:277-329 | append adds the event to the file and the list when the line is written and synced; a cut or unsynced write leaves the list alone and makes the store unhealthy. That the event carries what was given is `EventContents.JsonlAppendReturnsIff`. |
| `JsonlStore.JsonlEventStore.Close` | apps/fridayd/src/event-store.ts:331-367 | close forbids further appends and leaves file and list alone. |
| `JsonlStore.ParseCompleteLines` | apps/fridayd/src/event-store.ts:523-537 | The forward scan finds exactly the lines that a newline closes, and returns their events or the first bad line. |
| `SqliteStore.SqliteEventStore.constructor` | apps/fridayd/src/sqlite-event-store.ts:102-105 | A new store is closed and healthy, over the database and the legacy file it is given. |
| `SqliteStore.SqliteEventStore.OpenDatabase` | apps/fridayd/src/sqlite-event-store.ts:107-131 | open migrates, loads in sequence order, checks each row and the chain, and fails closed on any fault. |
| `SqliteStore.SqliteEventStore.MigrateLegacyJsonlIfNeeded` | apps/fridayd/src/sqlite-event-store.ts:283-327 | Only an empty table takes over the JSONL log, in one transaction that a clash rolls back whole. |
| `SqliteStore.SqliteEventStore.AppendEvent` | apps/fridayd/src/sqlite-event-store.ts:137-193 | append inserts the row and extends the list, or rolls back, leaves both alone and makes the store unhealthy. That the event carries what was given is `EventContents.SqliteAppendReturnsIff`. |
| `Jobs.SqliteJobRegistry.constructor` | apps/fridayd/src/job-registry.ts:71-75 | An empty registry. |
| `Jobs.SqliteJobRegistry.SignSpec` | apps/fridayd/src/job-registry.ts:361-384 | A signature draws a new lease id and sets the five-minute lease and the one-hour validity. |
| `Jobs.SqliteJobRegistry.CreateJob` | apps/fridayd/src/job-registry.ts:120-143 | create is idempotent by key, refuses a different request under a used key, dispatches an agent Job at once and holds any other for approval. |
| `Jobs.SqliteJobRegistry.ApproveJob` | apps/fridayd/src/job-registry.ts:145-158 | approve signs and dispatches a held R1 Job, and refuses any other. |
| `Jobs.SqliteJobRegistry.Wait` | apps/fridayd/src/job-registry.ts:160-174 | waitForToolApproval holds a dispatched or running agent Job of the unexpired lease, leaves a held one, and throws otherwise. |
| `Jobs.SqliteJobRegistry.Dispatch` | apps/fridayd/src/job-registry.ts:176-186 | dispatchAfterToolApproval releases a held agent Job of the unexpired lease, and throws otherwise. |
| `Jobs.SqliteJobRegistry.Redispatch` | apps/fridayd/src/job-registry.ts:188-201 | redispatchAfterDeniedToolCall releases a held agent Job, under a new lease if the old one expired. |
| `Jobs.SqliteJobRegistry.PullJob` | apps/fridayd/src/job-registry.ts:203-219 | pull returns a dispatched Job of the Runner that no other was created before, renewing an expired lease, and nothing only when there is none. |
| `Jobs.SqliteJobRegistry.Recover` | apps/fridayd/src/job-registry.ts:221-242 | recoverAgent discards an ended Job, holds a held one, and makes a running one of the presented lease ready again. |
| `Jobs.SqliteJobRegistry.Accept` | apps/fridayd/src/job-registry.ts:244-267 | acceptEvent takes the next event of the bound lease and an allowed transition, recognises an exact duplicate, and throws on a gap, a conflict or a stale lease. |
| `Jobs.SqliteJobRegistry.ReconcileJob` | apps/fridayd/src/job-registry.ts:269-284 | reconcile moves a dispatched or running Job of the unexpired lease to RECONCILING, leaves any other, and throws under another or an expired lease. |
| `Jobs.SqliteJobRegistry.CancelJob` | apps/fridayd/src/job-registry.ts:301-310 | cancel ends a Job that has not ended, and throws otherwise. |
| `NodeTools.NodeToolPolicy.constructor` | apps/fridayd/src/node-tool-policy.ts:40-45 | A policy over a Job registry and the stored calls. |
| `NodeTools.NodeToolPolicy.EvaluateCall` | apps/fridayd/src/node-tool-policy.ts:82-119 | evaluate repeats a known decision, denies an unavailable tool, authorises R0 at once, and stores any other call before it holds the Job; the states committed on the way are stated too. What that means for a call is said by `ToolClearance.ApprovedAtOnceIff` and its companions. |
| `NodeTools.NodeToolPolicy.Approve` | apps/fridayd/src/node-tool-policy.ts:121-144 | approve authorises a held call and then dispatches its Job, or denies it under an expired lease; two commits, in this order. |
| `NodeTools.NodeToolPolicy.DecisionFor` | apps/fridayd/src/node-tool-policy.ts:152-156 | decision reads the stored row, and an authorisation that ran out reads as denied. |
| `NodeTools.NodeToolPolicy.ReconcileInterruptedApprovals` | apps/fridayd/src/node-tool-policy.ts:185-214 | The restart loop over every held or authorised call, row by row, up to the first throw. |
| `NodeTools.NodeToolPolicy.ReconcileOne` | apps/fridayd/src/node-tool-policy.ts:190-213 | One iteration: hold again, dispatch, or deny and redispatch. |
| `NodeTools.NodeToolPolicy.Deny` | apps/fridayd/src/node-tool-policy.ts:195-199 | A denial clears the authorisation of the stored call. |
| `ModelAccess.RunnerModelAccessBroker.constructor` | apps/fridayd/src/model-access.ts:43-46 | A broker without grants. |
| `ModelAccess.RunnerModelAccessBroker.PruneGrants` | apps/fridayd/src/model-access.ts:166-172 | Pruning drops exactly the expired grants from both indexes. |
| `ModelAccess.RunnerModelAccessBroker.Revoke` | apps/fridayd/src/model-access.ts:140-146 | revokeJob drops exactly the Job's grants from both indexes. |
| `ModelAccess.RunnerModelAccessBroker.Drop` | apps/fridayd/src/model-access.ts:140-172 | The loop of both visits every grant and drops the selected ones from both maps. |
| `ModelAccess.RunnerModelAccessBroker.IssueGrant` | apps/fridayd/src/model-access.ts:48-87 | issue repeats the grant of an identical live request, refuses a reused request id, and grants only under the Job's active lease and tool. |
| `ModelAccess.RunnerModelAccessBroker.AuthorizeToken` | apps/fridayd/src/model-access.ts:89-105 | authorize accepts an unexpired token on the right provider and route under an active lease, exactly as `ModelRoutes.AuthorizedIff` says. |
| `ChannelOutbox.DurableOutbox.constructor` | apps/fridayd/src/channel-outbox.ts:34-88 | Empty tables. |
| `ChannelOutbox.DurableOutbox.BindJob` | apps/fridayd/src/channel-outbox.ts:92-102 | A Job is bound once; binding it again to the same recipient changes nothing, to another one throws. |
| `ChannelOutbox.DurableOutbox.AddTerminal` | apps/fridayd/src/channel-outbox.ts:104-118 | An ended Job gets at most one notification, to its bound recipient; an unbound one gets none. |
| `ChannelOutbox.DurableOutbox.AddClearance` | apps/fridayd/src/channel-outbox.ts:120-134 | A held call gets at most one notification, to its Job's recipient. |
| `ChannelOutbox.DurableOutbox.PullNotification` | apps/fridayd/src/channel-outbox.ts:136-179 | pull releases the channel's expired leases in both tables and leases the earliest ready row of the two. |
| `ChannelOutbox.DurableOutbox.AcknowledgeNotification` | apps/fridayd/src/channel-outbox.ts:181-193 | acknowledge delivers the row that is leased under this very lease id, looking in the two tables in turn. |
| `NotificationText.BuildTerminalText` | apps/fridayd/src/channel-outbox.ts:269-278 | The loop over a Job's events builds the heading of its status and the trimmed output and error texts, cut to 14 KiB. |
| `JobChannelNotifier.Notifier.constructor` | apps/fridayd/src/channel-outbox.ts:230-234 | A notifier over an outbox and a Job registry. |
| `JobChannelNotifier.Notifier.RequestClearance` | apps/fridayd/src/channel-outbox.ts:244-259 | requestClearance asks about a call that waits for approval and about no other. |
| `JobChannelNotifier.Notifier.ObserveJob` | apps/fridayd/src/channel-outbox.ts:238-242 | observe enqueues the notification of an ended Job, with the text of its status and its events, and of no other. |
| `JobChannelNotifier.Notifier.Reconcile` | apps/fridayd/src/channel-outbox.ts:262-266 | The loop observes the listed Jobs in turn and stops at the first throw. |
| `FridayState.EventSourcedState.constructor` | apps/fridayd/src/state.ts:78-86 | An empty state. |
| `FridayState.EventSourcedState.Rehydrate` | apps/fridayd/src/state.ts:87-98 | rehydrate folds the events from the empty state and stops at the first throw. |
| `FridayState.EventSourcedState.ApplyEvent` | apps/fridayd/src/state.ts:100-176 | apply accepts, ignores a repeated envelope, or throws and changes nothing. |
| `SelfPatch.SelfPatchRegistry.constructor` | apps/fridayd/src/m3-registry.ts:439-461 | Empty tables. |
| `SelfPatch.SelfPatchRegistry.TransitionTo` | apps/fridayd/src/m3-registry.ts:669-673 | A transition that the state allows is made, keeping the fields that are not given; any other throws. |
| `SelfPatch.SelfPatchRegistry.InsertPatch` | apps/fridayd/src/m3-registry.ts:475-478 | create inserts a valid new patch as a draft. |
| `SelfPatch.SelfPatchRegistry.RecordTest` | apps/fridayd/src/m3-registry.ts:528 | markTested takes a draft to TESTED with its evidence. |
| `SelfPatch.SelfPatchRegistry.AskApproval` | apps/fridayd/src/m3-registry.ts:544-547 | requestApproval serves plain patches only. |
| `SelfPatch.SelfPatchRegistry.AllowCanary` | apps/fridayd/src/m3-registry.ts:548-551 | approveCanary serves plain patches only, at the risk that was asked for. |
| `SelfPatch.SelfPatchRegistry.EndCanary` | apps/fridayd/src/m3-registry.ts:609-612 | completeCanary serves plain patches only. |
| `SelfPatch.SelfPatchRegistry.MarkFailed` | apps/fridayd/src/m3-registry.ts:621 | fail takes a draft, a tested patch or a canary to FAILED. |
| `SelfPatch.SelfPatchRegistry.InsertImprovement` | apps/fridayd/src/m3-registry.ts:497-527 | An improvement is inserted into both tables in one transaction, with normalised actions. |
| `SelfPatch.SelfPatchRegistry.AskClearance` | apps/fridayd/src/m3-registry.ts:552-576 | requestClearance stores the manifest's digest at the derived risk for a tested improvement that needs it. |
| `SelfPatch.SelfPatchRegistry.Grant` | apps/fridayd/src/m3-registry.ts:577-596 | grantClearance clears the pending manifest of this clearance id, once. |
| `SelfPatch.SelfPatchRegistry.BeginCanary` | apps/fridayd/src/m3-registry.ts:597-608 | startImprovementCanary needs the granted clearance of this id. |
| `SelfPatch.SelfPatchRegistry.FinishCanary` | apps/fridayd/src/m3-registry.ts:613-620 | completeImprovementCanary deploys or rolls back a cleared canary. |
| `SelfPatch.SelfPatchRegistry.FinishTest` | apps/fridayd/src/m3-registry.ts:529-543 | completeImprovementTest records the evidence, then asks for clearance or adopts; repeated with the same evidence it changes nothing. |
| `SelfPatch.SelfPatchRegistry.Open` | apps/fridayd/src/m3-registry.ts:466-472 | open adopts the low-risk improvements that were left TESTED. |
| `SelfPatch.Normalize` | apps/fridayd/src/m3-registry.ts:718-752 | Growing the set step by step gives the proposed actions with test, rollback, those of the category and those the scan detected. |
| `Conversation.ConversationRegistry.constructor` | apps/fridayd/src/conversation-registry.ts:81-83 | An empty registry. |
| `Conversation.ConversationRegistry.Open` | apps/fridayd/src/conversation-registry.ts:131-139 | open fails exactly the queued and thinking turns. |
| `Conversation.ConversationRegistry.AcceptMessage` | apps/fridayd/src/conversation-registry.ts:151-193 | A message of a channel gets one turn; sent again it is a duplicate, with other content a conflict. |
| `Conversation.ConversationRegistry.StartThinking` | apps/fridayd/src/conversation-registry.ts:195-205 | Only a queued turn starts thinking. |
| `Conversation.ConversationRegistry.StoreReply` | apps/fridayd/src/conversation-registry.ts:207-217 | Only a thinking turn is replied. |
| `Conversation.ConversationRegistry.StoreProposal` | apps/fridayd/src/conversation-registry.ts:219-255 | Only a thinking turn gets a proposal. |
| `Conversation.ConversationRegistry.StoreSchedulingResult` | apps/fridayd/src/conversation-registry.ts:257-277 | A later result replaces the earlier one, Job id and error alike, of a proposed turn only. |
| `Conversation.ConversationRegistry.FailTurn` | apps/fridayd/src/conversation-registry.ts:279-289 | Only a queued or thinking turn fails. |
| `Conversation.Converse` | apps/fridayd/src/conversation-orchestrator.ts:188-260 | The tool loop ends after at most five model calls, with the ending of the last answer, and asks again only after an answer that allows it. |
| `ImprovementJobs.SelfImprovementJobRegistry.constructor` | apps/fridayd/src/self-improvement-coordinator.ts:43-45 | No bindings. |
| `ImprovementJobs.SelfImprovementJobRegistry.RegisterJob` | apps/fridayd/src/self-improvement-coordinator.ts:66-87 | register repeats an identical binding, and otherwise binds only an unbound R1 develop Job that waits for approval, to an improvement no other Job is bound to. |
| `ConversationCallbacks.ConversationScheduler.constructor` | apps/fridayd/src/server.ts:871-878 | The callbacks over the Job registry and the bindings, with an event log that names no Job yet. |
| `ConversationCallbacks.ConversationScheduler.ScheduleProposal` | apps/fridayd/src/server.ts:787-816 | The callback for any Job, up to its wait for the event log: it reports the Job of this key and request, refuses another request under the key, or creates the Job. |
| `ConversationCallbacks.ConversationScheduler.ApproveIsolatedJob` | apps/fridayd/src/server.ts:818-822 | The rest of it: the event is appended, then the Job is approved, which may throw. |
| `ConversationCallbacks.ConversationScheduler.BindJob` | apps/fridayd/src/server.ts:855-859 | The Job is registered for the improvement, and approved if it waits; what throws is refused. |
| `ConversationCallbacks.ConversationScheduler.ScheduleSelfImprovement` | apps/fridayd/src/server.ts:824-869 | The callback for a self-improvement: the Job of this key, or a new one, is registered and approved, or the proposal is refused under the code of its fault. |
| `Framing.PiWorkerClient.constructor` | apps/fridayd/src/pi-worker-client.ts:211-230 | A new child starts with an empty buffer. |
| `Framing.PiWorkerClient.ConsumeChunk` | apps/fridayd/src/pi-worker-client.ts:232-266 | The loop takes the complete lines out of the buffer and terminates the worker on a CR, a refused line or a rest that is too long. |
| `Framing.PiWorkerClient.TerminateWorker` | apps/fridayd/src/pi-worker-client.ts:296-309 | Terminating rejects every request and the turn, and clears the buffer. |
| `TextChunks.Chunks` | apps/channel-gateway/src/channel-adapters.ts:77-87 | The loop returns the greedy split, and refuses an empty text or one of more than 128 KiB. |
| `TruncateUtf8.Truncate` | apps/fridayd/src/channel-outbox.ts:286-296 | The loop over the characters computes the cut text. |

## Left out

- HTTP routing, authentication, cookies, WebAuthn, the Owner's user interface, channel sockets, voice, web search, the MCP sidecar, model forwarding and the command line tools: clients and plumbing around libraries.
- `conversation-media.ts` and the voice media registry: `remove` and `#stored` call each other on an expired row before it is marked, so a faithful model has no termination measure.
- `channel-fleet-management.ts`, `fleet-scheduler.ts`, `runner-registry.ts`, the Procedure, Skill, MCP and Adapter registries and the evidence checks of `self-improvement-coordinator.ts`: filters and one-step guards that would only add easy members.
- SHA-256, Ed25519 and random UUIDs: digests have no collisions (the digested value stands for its digest), signatures are the fields they cover, and drawn ids are new. Letter case of UUIDs is not modelled.
- JSON.parse and JSON.stringify of event lines: an encoder without raw newlines and a decoder that inverts it. Shapes, patterns and length limits of input fields are a yes or no, except where a result depends on them.
- Error messages: refusals that differ only in their text share a name.
- SQL, WAL and PRAGMA: a transaction, or a statement outside one, is one atomic step. A query without a complete ORDER BY may return its rows in any order, and the results hold for every order. The instance lock row of the SQLite store is not modelled.
- Clocks do not go back within a run; `updated_at` columns are not modelled. `create` reads the clock again inside the signature, so its two readings are separate parameters.
- I/O errors in the lock protocol. Its bound of 16 attempts, and that of 64 rounds where claims vanish meanwhile, are the freedom to give up; no claim is ever made deeper than 63. Dead process ids stay dead and are not reused.
- Bytes that were never synced survive a power failure as a prefix of the file; blocks lost from its middle are not modelled.
- Truncation and quarantine of a partial tail by `open`, cut short: the copy was synced or not, and the truncation has happened or not. Copies that were not synced are not recorded, their tail is still in the file.
- Numbers in canonical JSON are integers; fractions and exponents are not modelled.
- Map iteration order, so the order of `listRunners`.
- SelfPatch.Normalize: does not model the regular expressions over the patch's paths and added lines; which actions they detect is an input, and the results hold for every outcome.
- SelfPatchGuarantees.NormalizationOnlyEscalates: likewise holds for whatever set of actions the scan detects.
- The promotion of a finished self-improvement Job, with the state and artifacts of its binding: a binding is its improvement id and metadata. An Owner's own self-improvement Job is the creation of a Job, a registration and an approval, in any order.
- The text of a self-improvement's prompt: a proposal carries the prompt its Job gets. A stored proposal has passed the checks that building it repeats, so the refusal there is not modelled, nor is a Hub without self-improvement.
- A Hub that approved a Job by policy does not start again, as `HubLog` shows; the conversation runs allow a restart all the same.
- The choice of a Runner, and whether the patch registry knows an improvement id, are inputs of the callbacks.
- History and prompt building, memory candidates and images of a conversation turn; an exception there is a submission that stops where it stands.
- Output of a Pi Worker that arrives after its client terminated it: the source goes on reading it, the results speak of the stream up to that point.
- Requests sent between two chunks: the framing results hold for a fixed set of outstanding requests.
- The plain-text background of a held call that is shown to the Owner in the console.
- The other steps of a start: opening the remaining registries, `selfImprovementCoordinator.reconcile()` (server.ts:655), which promotes finished self-improvement Jobs before the notifications are reconciled, and the replay of the event log, which `HubLog` treats.
- Of a tool call's shape only its reason is checked, which a notification may quote.
