# Polyth: verified models of its asynchronous cores

This project models the parts of Polyth whose comments promise something about every
interleaving, every input or every run, and proves those promises, or says exactly when
they hold. A stretch of source between two `await`s is one step; native calls, stores,
processes, timers and people are steps of their own that come in any order with any
outcome. Time is a clock that only moves forward.

Each stateful core has two forms. A value state machine (`...Model`, or the core's own
module) defines the steps as functions and carries the invariants and theorems over whole
runs. A class (`...Object`) has the source's own fields and changes them in place. Each of its
methods is one step of the model (`Took`), its `Valid` is the model's invariant, and one lemma
(`StaysValid`) carries the invariant over every call.

| files | core |
|---|---|
| `ConnectionModel`, `ConnectionRuns`, `ConnectionSafety`, `ConnectionContinuations`, `ConnectionFailures`, `ConnectionJobs`, `ConnectionOutcomes`, `ConnectionScreens`, `ConnectionObject` | the phone's connection controller: epochs, the connection queue, the physical session, late answers, failures, what each intent comes to |
| `WriteQueue`, `RecordCache`, `Persistence`, `PersistenceIntents`, `PersistenceObject` | client persistence: write chains, flush, the bounded working copy, late reads |
| `StructuredClone` | the structuredClone shim on graphs with sharing and cycles |
| `SupervisorModel`, `SupervisorSafety`, `SupervisorChanges`, `SupervisorProgress`, `SupervisorObject`, `SupervisorPlan`, `SweepWatch`, `SweepWalk` | the development supervisor: change queue, child lifecycle, backoff, liveness, reconciliation sweep |
| `LineSplitter`, `LinkClient`, `LinkCalls`, `LinkClientObject` | the desktop's JSON-lines client |
| `ImportClosure` | the static import closure of the web build |
| `ThumbQueue` | the re-entrant slot queue for attachment tiles |
| `AttachmentCache`, `AttachmentDrafts`, `AttachmentCacheObject` | pending attachments: an LRU cache with pinned entries |
| `CapabilityLayout`, `CapabilityPlaces`, `CapabilityLayoutObject` | placements, arrivals and rails |
| `ComposerConfig`, `ComposerEdits` | the composer's pending configuration |
| `RestartWaits` | the waiting loops and bundle snapshots of the restart script |
| `BuildFreshness`, `FreshnessChecks`, `ConversationReveal`, `AccountId` | the freshness watcher, conversation reveals, account ids |

`dafny verify dfyconfig.toml` checks everything.

## What the code does not promise after all

Where a comment promises more than the code keeps, the model follows the code, a lemma gives
the exact condition, and for most of them another gives a run that fails.

- `confirmPairing` and `loadTrustedConnections` write the physical id outside the
  connection queue, and four disconnects swallow their failure
  (`apps/mobile/src/connectionController.ts:230`, `:238`, `:250`, `:277`, `:427`, `:431`).
- A late confirmation is not disconnected while the screen names its server as target or as
  active (`apps/mobile/src/connectionController.ts:424-429`). When that connect then fails,
  the session stays open and the controller holds no id (ConnectionSafety.LateConfirmStrays).
- A disconnect asked for during a rollback captures the id being dropped and then clears
  the physical id the rollback restored (`apps/mobile/src/connectionController.ts:554`, `:561`).
- `errorText` and `errorCode` call each other without end for a cause that carries no
  string code (`apps/mobile/src/connectionController.ts:62-79`), so such a failure never
  reaches the view and its screen stays locked until the next intent
  (ConnectionFailures.FailureShownExact, ConnectionFailures.UncodedStrands).
- `hydrateClientRecord` does not look at the backend generation, and eviction drops the
  version stamp it compares (`apps/web/src/clientPersistence.ts:94-95`, `:201-205`).
- `clone["__proto__"] = ...` creates no property but gives the clone a prototype, whose
  getters make later assignments throw, and Dates, expressions and buffers held at two places
  lose their sharing (`apps/web/src/arrayCompat.ts:94-118`, `:127`).
- A server that could not be spawned still counts as a child, so a bundle-only change does
  not start one (`scripts/supervisor.ts:140-143`, `:408`).
- A change below a hidden directory, or to a symbolic link (which the walk takes for neither
  file nor directory), is noted by the watcher and again, as a deletion, by the next sweep
  (`scripts/supervisor.ts:449-456`, `scripts/supervisorPlan.ts:214-216`).
- A line of output holding `null` makes its handler throw, and the lines behind it wait for the
  next chunk (`apps/desktop/src/polythLinkClient.ts:98`, `:133-141`).
- An `error` event of a process that still runs lets the next request start a second one
  (`apps/desktop/src/polythLinkClient.ts:114-126`).
- `id in placements` also finds names every object inherits, and `"tier"` and `"rank"` once
  `"__proto__"` was assigned, so a full record accepts them
  (`apps/web/src/capabilityLayout.ts:298`, `:318-321`).
- A draft changed by another module is not seen while its attachments are cached
  (`apps/web/src/attachments.ts:56-60`).
- A check in flight when the watcher is disposed may still reload the page
  (`apps/web/src/buildFreshness.ts:213-235`).
- A reveal that an abort listener asks for is replaced unfinished, and two requests wait
  (`apps/web/src/conversationReveal.ts:38-59`).

## Model

| member | source | states |
|---|---|---|
| ConnectionRuns.SafeAlways | apps/mobile/src/connectionController.ts:220-262 | after a truthful first load, over every interleaving of intents, native answers and queue steps with nothing uncalm in it (a swallowed disconnect that fails, an untruthful reload, a confirmation beside an operation or another server, a late one for a server the screen names, a disconnect across a rollback): "connected" names the physical id, and with no queued operation running every open session is that one or is being dropped |
| ConnectionRuns.QueueAlone | apps/mobile/src/connectionController.ts:457-607 | read off the events alone: over every interleaving of connects, recoveries, disconnects, forgets, stalled launches and the other intents, with the swallowed disconnects and the switch's succeeding and without confirmations or reloads, "connected" names the physical id and between operations no other session is open |
| ConnectionRuns.CalmKeeps | apps/mobile/src/connectionController.ts:193-262 | each calm step keeps the invariant: epochs in order, a switch holding the launch it opened, a disconnect holding the id it captured, "connected" only at rest, every session accounted for |
| ConnectionRuns.CalmIsSharp | apps/mobile/src/connectionController.ts:228-290 | where every session the fields name is open, a queue step other than the switch's drop, or an answer heard while none runs, is calm if and only if the fields still account for every open session after it |
| ConnectionSafety.BalancedRuns | apps/mobile/src/connectionController.ts:220-262 | over every run whose steps balance: "connected" names the physical id, and with no queued operation running every open session is the physical one, is being dropped, or was confirmed late and kept; the frame into which the exact conditions below fit |
| ConnectionSafety.StepKeeps | apps/mobile/src/connectionController.ts:193-262 | each single step that balances keeps the rest of the invariant too (queue in epoch order, one continuation an epoch, the screen honest) |
| ConnectionSafety.BalanceExact | apps/mobile/src/connectionController.ts:193-262 | a step keeps the accounting for every set of native sessions it accounts for if and only if the controller's fields balance across it |
| ConnectionSafety.SturdyBalances | apps/mobile/src/connectionController.ts:193-262 | every intent, late confirmation, launch, and failure that keeps its session balances; only current reloads and confirmations, swallowed disconnects, a finished switch, a rollback and a disconnect can fail to |
| ConnectionSafety.FirstLoadSynchronises | apps/mobile/src/connectionController.ts:264-282 | a first load that reports the session the native side kept establishes the invariant, so the promise starts there |
| ConnectionSafety.ConfirmExact | apps/mobile/src/connectionController.ts:418-437 | a confirmation, late or current and whatever operation runs, balances if and only if it is late, or the physical id is free, the confirmed server, in the hands of the running operation, or owed |
| ConnectionSafety.ReloadExact | apps/mobile/src/connectionController.ts:264-282 | a list reload, whatever operation runs, balances if and only if it is superseded, or the physical id is free, the one the statuses name, in the hands of the running operation, or owed |
| ConnectionSafety.StrayDropExact | apps/mobile/src/connectionController.ts:424-429 | the swallowed disconnect of a late confirmation balances if and only if it succeeds or another field still accounts for the session |
| ConnectionSafety.StaleDropExact | apps/mobile/src/connectionController.ts:228-233 | the swallowed disconnect of a stalled launch balances if and only if it succeeds, or the id is not the physical one, or is owed |
| ConnectionSafety.SupersededDropExact | apps/mobile/src/connectionController.ts:237-243 | the swallowed disconnect of a superseded launch balances if and only if it succeeds or the launch is owed |
| ConnectionSafety.PreviousDropExact | apps/mobile/src/connectionController.ts:245-262 | finishing a switch balances if and only if the launch is still the physical id (or owed, or the very server dropped) |
| ConnectionSafety.RollbackExact | apps/mobile/src/connectionController.ts:249-253 | a rollback balances if and only if its swallowed disconnect succeeds (or the launch is accounted for otherwise) and nothing else was put in its place meanwhile |
| ConnectionSafety.DisconnectExact | apps/mobile/src/connectionController.ts:553-562 | a finished disconnect balances if and only if the physical id is free, the one captured when it was asked for, or owed |
| ConnectionSafety.ShownExact | apps/mobile/src/connectionController.ts:228-262 | a queue step keeps "connected" naming the physical id if and only if it leaves that id or the screen does not say "connected" |
| ConnectionSafety.ReloadDuringSwitchExact | apps/mobile/src/connectionController.ts:245-256 | after a reload in the middle of a switch, dropping the previous server balances if and only if the statuses named the server switched to, or it is owed |
| ConnectionSafety.RollbackDisconnectExact | apps/mobile/src/connectionController.ts:249-253 | a disconnect asked for during a rollback forgets the server rolled back to: it balances if and only if that server is the captured one or owed |
| ConnectionSafety.RollbackLosesDisconnect | apps/mobile/src/connectionController.ts:249-253 | a state reachable from the start in which that has happened: the first server is still open and the physical id is gone |
| ConnectionSafety.LateConfirmExact | apps/mobile/src/connectionController.ts:424-429 | a late confirmation becomes a kept session if and only if the screen names its server and the controller does not hold it; with neither target nor active its disconnect is under way |
| ConnectionSafety.TargetConfirmExact | apps/mobile/src/connectionController.ts:424-429 | kept as the target of a queued connect, it stops being owed if and only if that connect opens the very server |
| ConnectionSafety.LateConfirmStrays | apps/mobile/src/connectionController.ts:424-429 | a state reachable from the start in which such a connect failed: the session is open, nothing is in flight, and the controller holds no id |
| ConnectionContinuations.SupersededReport | apps/mobile/src/connectionController.ts:275-316 | a report of a superseded or disposed epoch changes nothing shown; the pairing attempt it brings is cancelled and the discovery session it brings is stopped |
| ConnectionContinuations.SupersededWork | apps/mobile/src/connectionController.ts:485-500 | a queued operation of a superseded epoch changes nothing shown |
| ConnectionContinuations.EpochlessReport | apps/mobile/src/connectionController.ts:573-580 | rename, the one continuation without an epoch, changes only the list and keeps its ids |
| ConnectionContinuations.OnlyCurrentShows | apps/mobile/src/connectionController.ts:210-212 | apart from intents, only a continuation of the newest epoch changes the view, a rename's refresh in place excepted |
| ConnectionContinuations.DisposedIsFinal | apps/mobile/src/connectionController.ts:180-188 | after disposal no run changes the view |
| ConnectionContinuations.NoBrowserLeaks | apps/mobile/src/connectionController.ts:292-306 | over every run the only discovery browser running is the one held, and none after disposal, stopping one being taken to succeed |
| ConnectionContinuations.CancelledNeverShows | apps/mobile/src/connectionController.ts:353-361 | over every run a pairing attempt given up, by the person or because it came late, is never shown |
| ConnectionContinuations.ForgetUnlists | apps/mobile/src/connectionController.ts:582-597 | a finished forget takes exactly that server off the list |
| ConnectionContinuations.ForgottenStaysForgotten | apps/mobile/src/connectionController.ts:573-580 | without a reload no run lists a server that is not listed: a rename never brings a forgotten one back |
| ConnectionFailures.FailureShownExact | apps/mobile/src/connectionController.ts:62-79 | a current failure leaves a view without an error as it was if and only if its cause carries no code; with a code its text is shown |
| ConnectionFailures.AlwaysOrderly | apps/mobile/src/connectionController.ts:193-226 | over every run the newest intent waits for at most one call or operation, on the phase it showed for it |
| ConnectionFailures.UncodedStrands | apps/mobile/src/connectionController.ts:131-142 | after a failure without a code no run changes the phase or the error until the next intent; the phase is a busy one if and only if the failure was of a list, numeric code, ticket, pairing, confirmation, connect, recovery or forget |
| ConnectionJobs.AlwaysDiligent | apps/mobile/src/connectionController.ts:193-224 | over every run whose failures all show: a screen that waits (other than for a person to compare phrases) has a call or an operation of the newest intent outstanding, that operation is for the server the screen aims at, and the native side is asked for what the running operation says |
| ConnectionJobs.DiligentStep | apps/mobile/src/connectionController.ts:193-607 | every step that shows its failure keeps this |
| ConnectionJobs.JobStays | apps/mobile/src/connectionController.ts:220-224 | a job of the newest intent is outstanding after a step if and only if the step was not its own final answer; so a current operation runs when its turn comes |
| ConnectionJobs.JobUntilSettled | apps/mobile/src/connectionController.ts:220-224 | over every run without another intent a job is outstanding until its own answer comes |
| ConnectionJobs.ConnectQueuedExact | apps/mobile/src/connectionController.ts:457-485 | a connect is queued if and only if the server is saved, not revoked, not half paired and has a secure identity |
| ConnectionJobs.RecoverQueuedExact | apps/mobile/src/connectionController.ts:516-524 | a recovery is queued if and only if the server is saved, half paired and has a secure identity |
| ConnectionJobs.DropQueuedExact | apps/mobile/src/connectionController.ts:553-584 | a disconnect is queued if and only if the id is the physical connection, a forget always |
| ConnectionOutcomes.LoadShows | apps/mobile/src/connectionController.ts:264-282 | a load ends showing the saved servers, with the first one reported as connected as active and physical |
| ConnectionOutcomes.FirstConnectedExact | apps/mobile/src/connectionController.ts:276 | the first server whose status is connected is the one found |
| ConnectionOutcomes.DiscoveryShows | apps/mobile/src/connectionController.ts:292-306 | a started browser is held while its screen is up, shows what it finds, and is stopped by any intent and by the screens it leads to |
| ConnectionOutcomes.NumericPairs | apps/mobile/src/connectionController.ts:324-369 | a code for a nearby server ends in its attempt; on failure the server stays chosen |
| ConnectionOutcomes.TicketPairs | apps/mobile/src/connectionController.ts:387-407 | a scanned or pasted ticket is parsed, paired with and shown |
| ConnectionOutcomes.AttemptEnds | apps/mobile/src/connectionController.ts:418-455 | a confirmed attempt ends connected to the server it opened; a cancelled one is given up natively |
| ConnectionOutcomes.ConnectCompletes | apps/mobile/src/connectionController.ts:479-490 | with no other server open a connect launches and ends shown |
| ConnectionOutcomes.SwitchCompletes | apps/mobile/src/connectionController.ts:235-262 | a switch drops the previous server before it is shown; when that fails the new one is dropped and the previous one stays |
| ConnectionOutcomes.StaleLaunchIsReplaced | apps/mobile/src/connectionController.ts:226-233 | after a stalled launch the next connect drops that proxy first, whatever the drop answers, and then launches again |
| ConnectionOutcomes.LaunchFails | apps/mobile/src/connectionController.ts:491-499 | a coded failure of a launch is shown with its screen and text, and nothing open changes |
| ConnectionOutcomes.RecoveryForgets | apps/mobile/src/connectionController.ts:529-538 | a recovery that needs pairing takes that server, and no other, off the list and says so |
| ConnectionOutcomes.DisconnectCompletes | apps/mobile/src/connectionController.ts:553-569 | a disconnect closes the physical connection; a failed one leaves it |
| ConnectionOutcomes.ForgetCompletes | apps/mobile/src/connectionController.ts:582-606 | a forget of an idle controller ends with the server closed, unlisted and no longer active, and no other touched; a failed one changes neither |
| ConnectionOutcomes.RefusalShows | apps/mobile/src/connectionController.ts:457-477 | a refused connect queues nothing and shows which of the four reasons holds, in the order of the checks |
| ConnectionOutcomes.RenameRefreshes | apps/mobile/src/connectionController.ts:573-580 | after a rename each listed entry is the one just read, or itself when it was not read |
| ConnectionOutcomes.FailurePhaseExact | apps/mobile/src/connectionController.ts:81-110 | each failure screen is reached from its own codes and no others |
| ConnectionScreens.EpochTakenExact | apps/mobile/src/connectionController.ts:193-208 | an intent takes an epoch unless it is a stalled launch of another connection, a confirmation without an attempt, a recovery of a server not half paired, or belongs to an older scan; those change nothing |
| ConnectionScreens.PhaseShownExact | apps/mobile/src/connectionController.ts:264-584 | which intents lead to which screen, and when a connect shows a switch or a reconnect |
| ConnectionScreens.PairingShownExact | apps/mobile/src/connectionController.ts:292-455 | which intents drop the attempt shown, the server a code is for, and what was discovered |
| ConnectionScreens.TargetShownExact | apps/mobile/src/connectionController.ts:193-208 | the server aimed at is that of a connect to a saved one, a recovery or a forget; only a stalled launch takes away the one shown as open |
| ConnectionScreens.ErrorShownExact | apps/mobile/src/connectionController.ts:335-514 | an intent shows no error but its own |
| ConnectionScreens.DisposeShowsNothing | apps/mobile/src/connectionController.ts:180-185 | disposing stops the browser and changes nothing else that is shown or queued |
| ConnectionScreens.AnswersExact | apps/mobile/src/connectionController.ts:571-580 | an answer comes only to its own call in flight |
| ConnectionScreens.RenameGoesOn | apps/mobile/src/connectionController.ts:571-580 | a rename is called, the list is read if it succeeded, and then it is over |
| ConnectionScreens.ScanFailureShown | apps/mobile/src/connectionController.ts:382-385 | a failed scan shows the idle screen with its error and nothing else new |
| ConnectionScreens.CancelFailureShown | apps/mobile/src/connectionController.ts:452-454 | a failed cancel only shows its error |
| ConnectionScreens.DiscoveryFailureShown | apps/mobile/src/connectionController.ts:307-317 | a failed browser shows nothing found, its code, and the permission screen if that was denied |
| ConnectionScreens.NumericFailureShown | apps/mobile/src/connectionController.ts:362-369 | a failed code leaves the server chosen it was entered for |
| ConnectionObject.ConnectionController.StaysValid | apps/mobile/src/connectionController.ts:146-262 | every calm method call keeps the invariant of ConnectionRuns, and with it the promise of SafeAlways |
| ConnectionObject.ConnectionController.Connect | apps/mobile/src/connectionController.ts:457-501 | refuses as the checks order it, or takes the next epoch and queues the connect: the model's step |
| ConnectionObject.ConnectionController.RecoverPrepared | apps/mobile/src/connectionController.ts:516-551 | ignores, refuses or queues a recovery: the model's step |
| ConnectionObject.ConnectionController.DisconnectActive | apps/mobile/src/connectionController.ts:553-569 | captures the physical id at the call and queues its disconnect: the model's step |
| ConnectionObject.ConnectionController.Forget | apps/mobile/src/connectionController.ts:582-607 | takes an epoch and queues the forget: the model's step |
| ConnectionObject.ConnectionController.LaunchStalled | apps/mobile/src/connectionController.ts:507-514 | marks the launch stale only while it is the one shown as connected: the model's step |
| ConnectionObject.ConnectionController.ConfirmPairing | apps/mobile/src/connectionController.ts:418-437 | keeps the attempt while it waits: the model's step |
| ConnectionObject.ConnectionController.OnTrustedList | apps/mobile/src/connectionController.ts:264-290 | a current list writes the physical id at once: the model's step |
| ConnectionObject.ConnectionController.OnConfirmed | apps/mobile/src/connectionController.ts:423-445 | a late launch is dropped unless it is shown or aimed at: the model's step |
| ConnectionObject.ConnectionController.StartOperation | apps/mobile/src/connectionController.ts:485-488 | a superseded operation ends at once and a current one asks the native side, dropping a stale launch first: the model's step (ConnectionJobs.JobStays says that no current operation is skipped) |
| ConnectionObject.ConnectionController.LaunchDropped | apps/mobile/src/connectionController.ts:228-243 | forgets a stale or superseded launch whatever its disconnect answered: the model's step |
| ConnectionObject.ConnectionController.LaunchAnswered | apps/mobile/src/connectionController.ts:485-500 | activates a current launch and drops a superseded one: the model's step |
| ConnectionObject.ConnectionController.PreviousDropped | apps/mobile/src/connectionController.ts:246-262 | shows the connection, or begins the rollback when the previous server would not go: the model's step |
| ConnectionObject.ConnectionController.RolledBack | apps/mobile/src/connectionController.ts:249-253 | returns to the previous server: the model's step |
| ConnectionObject.ConnectionController.DisconnectAnswered | apps/mobile/src/connectionController.ts:559-567 | clears the physical id on success: the model's step, including the failure that keeps the physical id |
| ConnectionObject.ConnectionController.ForgetAnswered | apps/mobile/src/connectionController.ts:586-605 | a current forget unlists the server and clears the active id only if it was that one: the model's step |
| Persistence.Always | apps/web/src/clientPersistence.ts:60-207 | every run from the empty module keeps the whole invariant: ordered chains, exact error ledger, bounded coherent cache, stamps only for cached records |
| WriteQueue.StoreHoldsLastSuccess | apps/web/src/clientPersistence.ts:112-132 | the store holds the value of the last successful operation of a record, in issue order, if and only if no later one took effect without success; so it does when failures leave the record alone and nothing of it runs |
| WriteQueue.NoSuccessNoChange | apps/web/src/clientPersistence.ts:112-132 | with failures that leave the record alone and nothing running, a generation has changed what the store holds of a record if and only if some operation of it succeeded |
| PersistenceIntents.QueuedAreIntents | apps/web/src/clientPersistence.ts:112-193 | over every run the writes queued are exactly the local writes and removals asked for while a backend was installed, in order, with their record, value and barrier flag |
| PersistenceIntents.FlushStoresIntents | apps/web/src/clientPersistence.ts:136-165 | when a flush returns after any run, the store holds the last value asked for of every record last written with a barrier, and that is what readers are promised |
| PersistenceIntents.NewestAlways | apps/web/src/clientPersistence.ts:152-193 | over every run the promised value of a record is that of its last intent in this generation |
| PersistenceIntents.LocalExact | apps/web/src/clientPersistence.ts:60-69 | without a backend a record reads as the last local write or removal the browser accepted, whatever backends came and went |
| WriteQueue.FlushMeansDurable | apps/web/src/clientPersistence.ts:134-140 | a flush returns normally if and only if every barrier write has settled and the last one of each record of this generation succeeded, whatever preference writes did |
| WriteQueue.ReplacementForgets | apps/web/src/clientPersistence.ts:71-78 | after the backend is replaced a flush asks only that earlier barrier writes settled, not that they succeeded |
| WriteQueue.LaterWaits | apps/web/src/clientPersistence.ts:115-118 | nothing issued later on a chain starts before an unfinished write of it |
| WriteQueue.IssueKeeps | apps/web/src/clientPersistence.ts:112-120 | issuing keeps the queue invariant |
| WriteQueue.RecordKeeps | apps/web/src/clientPersistence.ts:121-127 | recording a settlement keeps the ledger equal to the newest recorded barrier write of each chain |
| WriteQueue.FinishKeeps | apps/web/src/clientPersistence.ts:128-131 | the finally clause drops a chain only when its newest write is done |
| RecordCache.PutFacts | apps/web/src/clientPersistence.ts:86-97 | a put stores the value, keeps at most 128 entries, forgets at most the oldest other record with its stamp, and touches no other |
| Persistence.ReadsNewestIntent | apps/web/src/clientPersistence.ts:145-165 | a stamped record reads as the newest local write or removal |
| Persistence.StampExact | apps/web/src/clientPersistence.ts:71-97 | after a step a record is stamped if and only if it was or the step writes it, the step installs no backend, and the record is still cached |
| Persistence.KeptExact | apps/web/src/clientPersistence.ts:86-104 | over every run a record is stamped at the end if and only if it was cached at every step since it was written, under one backend |
| Persistence.CachedReadsNewest | apps/web/src/clientPersistence.ts:145-165 | so over every run a record written locally and cached ever since reads as the newest local intent |
| Persistence.LateReadExact | apps/web/src/clientPersistence.ts:195-207 | a hydration ending late returns and leaves the newest local intent if and only if the record is stamped, or the store agreed |
| Persistence.LateReadOverRuns | apps/web/src/clientPersistence.ts:195-207 | so over every run it does if and only if the record was cached ever since it was written, or the store agreed |
| Persistence.WriteBeatsRead | apps/web/src/clientPersistence.ts:200-206 | a write during a hydration survives its answer |
| Persistence.OldBackendLeaksExact | apps/web/src/clientPersistence.ts:201-205 | an answer of an earlier backend is cached under the new one if and only if the record carries no stamp there, cached or not; with a stamp the newest local intent stays |
| Persistence.OldBackendLeaks | apps/web/src/clientPersistence.ts:196-207 | a concrete run in which it is read back under the new backend |
| Persistence.OldBackendOverwrites | apps/web/src/clientPersistence.ts:196-207 | a concrete run in which it overwrites what the new backend had answered |
| PersistenceObject.ClientPersistence.StaysValid | apps/web/src/clientPersistence.ts:60-207 | every call keeps the invariant, and with it stamped records cached with their newest local intent |
| PersistenceObject.ClientPersistence.SetClientPersistenceBackend | apps/web/src/clientPersistence.ts:71-78 | clears cache, stamps, chains and errors but not the pending writes: the model's step |
| PersistenceObject.ClientPersistence.CacheSet | apps/web/src/clientPersistence.ts:88-97 | the eviction loop computes the bounded put |
| PersistenceObject.ClientPersistence.CacheGet | apps/web/src/clientPersistence.ts:99-104 | a hit becomes the youngest entry |
| PersistenceObject.ClientPersistence.QueueWrite | apps/web/src/clientPersistence.ts:112-132 | a write goes behind the newest of its chain |
| PersistenceObject.ClientPersistence.SettlementHandled | apps/web/src/clientPersistence.ts:121-127 | records errors of barrier writes of the current generation only |
| PersistenceObject.ClientPersistence.FinallyRuns | apps/web/src/clientPersistence.ts:128-131 | forgets the write, and its chain when it is the newest |
| PersistenceObject.ClientPersistence.FlushOutcome | apps/web/src/clientPersistence.ts:136-140 | waits, fails or returns as the ledger says |
| PersistenceObject.ClientPersistence.ReadClientRecord | apps/web/src/clientPersistence.ts:147-150 | returns and touches the working copy |
| PersistenceObject.ClientPersistence.WriteRecord | apps/web/src/clientPersistence.ts:152-193 | stamps, caches and queues one local intent: the model's step (PersistenceIntents says that what is queued is what was asked for) |
| PersistenceObject.ClientPersistence.BeginHydrate | apps/web/src/clientPersistence.ts:196-201 | answers from the cache or remembers the stamp it saw |
| PersistenceObject.ClientPersistence.EndHydrate | apps/web/src/clientPersistence.ts:202-206 | keeps the newer working copy |
| StructuredClone.Clone | apps/web/src/arrayCompat.ts:87-137 | terminates on every finite graph, cyclic or shared; a reachable function or symbol, or a reachable object whose own "__proto__" is followed by a name its object has only a getter for, makes it fail, and nothing else does where no "__proto__" holds an object owning one; otherwise leaves the source memory unchanged and `seen` ends as an injection from exactly the reachable containers to new, completely filled containers of the same kind |
| StructuredClone.MapBehindProto | apps/web/src/arrayCompat.ts:125-127 | an own "__proto__" holding a Map before a property "size" is such an input, with no function in it |
| StructuredClone.ThrowIsBad | apps/web/src/arrayCompat.ts:127 | in the middle of any copy an assignment throws only for such a name, or up a chain of several "__proto__"s |
| StructuredClone.Cloner.CloneValue | apps/web/src/arrayCompat.ts:87-129 | any value, in the middle of a copy: everything recorded but the containers still being filled is complete, only what is reachable is recorded, and every copied Date, expression or buffer lives at one place only |
| StructuredClone.Cloner.CloneContainer | apps/web/src/arrayCompat.ts:100-128 | one container: recorded before its children, filled when it returns |
| StructuredClone.InsertAppends | apps/web/src/arrayCompat.ts:100-127 | in a copied map, set or object no copied entry ever replaces another, because copies of different keys differ |
| StructuredClone.VisitedBelow | apps/web/src/arrayCompat.ts:87-129 | a finished copy has visited every value any path leads to |
| StructuredClone.LooksAgree | apps/web/src/arrayCompat.ts:87-129 | without lost entries, following any access path from the root finds a value in the clone if and only if it does in the source, and finds its copy |
| StructuredClone.MeetExact | apps/web/src/arrayCompat.ts:92-118 | two access paths meet in the clone: to a container or primitive if and only if they meet in the source, to a Date, expression or buffer if and only if they end in the same place |
| StructuredClone.SharingSurvives | apps/web/src/arrayCompat.ts:87-129 | without lost entries every two access paths meet alike in source and clone if and only if no reachable Date, expression or buffer is held at two places |
| StructuredClone.FaithfulExact | apps/web/src/arrayCompat.ts:125-127 | every access path answers alike if and only if no reachable object owns a property named "__proto__", whose assignment creates none |
| StructuredClone.IndistinguishableExact | apps/web/src/arrayCompat.ts:87-129 | no access path and no comparison of two tells clone and source apart if and only if no reachable object owns "__proto__" and no leaf is held at two places |
| SupervisorSafety.Always | scripts/supervisor.ts:127-204 | every run keeps the supervisor's invariant |
| SupervisorSafety.NeverTwoServers | scripts/supervisor.ts:127-204 | over all interleavings of crashes, backoff timers, planned restarts and shutdown at most one server process runs, and an ordinary exit leaves none |
| SupervisorSafety.NeverStranded | scripts/supervisor.ts:144-163 | while up, a server that is gone always has a pending exit event, a backoff timer, a spent budget or a restart under way; a failed spawn is the one exception |
| SupervisorSafety.CrashBacksOff | scripts/supervisor.ts:144-163 | a crash counts as the next of the row, or as the first after 15 s of uptime, and sets exactly its backoff or, past the budget, nothing |
| SupervisorSafety.CountMoves | scripts/supervisor.ts:198-204 | nothing but a crash or a planned restart moves the crash count |
| SupervisorSafety.CountIsRow | scripts/supervisor.ts:144-204 | over every run the crash count is the number of fast exits in a row since the last planned restart or long uptime |
| SupervisorSafety.AutomaticRestartWaits | scripts/supervisor.ts:158-162 | after any run with k fast exits in a row: the supervisor is down if and only if k has passed maxCrashes, and a backoff timer that fires does start the server, not before the k-th crash plus the k-th backoff |
| SupervisorSafety.DownUntilChange | scripts/supervisor.ts:152-156 | with the budget spent and the queue idle, no run without a change starts anything |
| SupervisorSafety.NothingAfterSignal | scripts/supervisor.ts:684-699 | after the first signal no run starts another server |
| SupervisorSafety.NoLostWakeup | scripts/supervisor.ts:369-417 | over every run: pending work has a timer, queued work a running drain loop unless shutting down, and an idle loop means every restart request was served or dropped |
| SupervisorSafety.FatesExact | scripts/supervisor.ts:396-417 | a request becomes served exactly when a pass carrying it starts a server, dropped exactly when the build of its pass fails, and fates are final |
| SupervisorSafety.OnePassTakesAll | scripts/supervisor.ts:400-404 | changes coalesce: from any state a run without new requests begins at most one more pass |
| SupervisorChanges.NothingNotedIsLost | scripts/supervisor.ts:369-417 | for every run, every change noted or committed in it and every further run: its build is pending, queued or was taken by a pass; its restart is pending, or a request no older than it waits, is carried, was served or was dropped with a failed build |
| SupervisorChanges.RestMeansDone | scripts/supervisor.ts:378-417 | so once nothing is pending and the drain loop is idle outside a shutdown, every build asked for before was taken by a pass and every restart served, or dropped with a failed build |
| SupervisorChanges.AskedIsWanted | scripts/supervisor.ts:369-394 | a noted change or a moved head leaves its build and its restart wanted |
| SupervisorChanges.WantedStays | scripts/supervisor.ts:378-410 | no step loses a wanted build or restart; a pass that takes the build flag builds, and carries the restart |
| SupervisorProgress.DrainEnds | scripts/supervisor.ts:396-417 | over every run without new requests the drain loop goes on at most sixteen times, each time nearer to rest |
| SupervisorProgress.DrainNeverStuck | scripts/supervisor.ts:396-417 | a drain loop that is not idle can go on by exactly one kind of event, or waits for a process that can die or be reported |
| SupervisorProgress.DrainMoves | scripts/supervisor.ts:378-417 | the loop wakes if and only if something is raised outside a shutdown, a pass restarts if and only if it was asked to or there is no server, and nothing else moves the loop |
| SupervisorProgress.ShutdownNeverStuck | scripts/supervisor.ts:167-196 | a shutdown that waits can go on, or waits for a process that can die or be reported |
| SupervisorProgress.ShutdownMoves | scripts/supervisor.ts:679-699 | a signal waits for a running server and exits at once without one, each wait leads to the next, and a second signal ends it |
| SupervisorProgress.LiveMoves | scripts/supervisor.ts:127-140 | a process is started at boot, by a backoff timer that finds none and at the end of a planned restart, and by nothing else, and runs until it dies |
| SupervisorProgress.DeadMoves | scripts/supervisor.ts:145-147 | a process that died is dead until its exit is reported |
| SupervisorProgress.ChildMoves | scripts/supervisor.ts:127-196 | the child is the server started last, until its exit, the end of a stop, or a stop that finds it was never spawned |
| SupervisorProgress.TimesMove | scripts/supervisor.ts:145-171 | a crash within the budget, and nothing else, sets the backoff timer; its firing or a planned stop clears it |
| SupervisorProgress.TimesExact | scripts/supervisor.ts:138-161 | over every run uptimes and backoffs are measured from the last start and the last crash of the run |
| SupervisorProgress.PendingMoves | scripts/supervisor.ts:369-385 | what is pending is the merge of what was noted since the last flush, and a flush empties it |
| SupervisorSafety.BundlePassExact | scripts/supervisor.ts:406-412 | a bundle-only pass leaves the server alone if and only if the supervisor believes it has a child |
| SupervisorSafety.SpawnFailureStrands | scripts/supervisor.ts:140-143 | a concrete run: after a failed spawn a bundle change leaves the supervisor idle with no server |
| SupervisorObject.Supervisor.StaysValid | scripts/supervisor.ts:127-417 | every call keeps the invariant, and with it one server at most and no queued work without a drain loop |
| SupervisorObject.Supervisor.StartServer | scripts/supervisor.ts:127-138 | one new child; the model's step |
| SupervisorObject.Supervisor.OnExit | scripts/supervisor.ts:144-163 | crash handling and the promises of stopServer, in that order: the model's step |
| SupervisorObject.Supervisor.OnRestartTimer | scripts/supervisor.ts:158-162 | starts only without a child and outside shutdown: the model's step |
| SupervisorObject.Supervisor.BeginStop | scripts/supervisor.ts:167-184 | clears the timer and waits only for a child with a process: the model's step |
| SupervisorObject.Supervisor.NoteChange | scripts/supervisor.ts:369-376 | merges and arms the debounce: the model's step |
| SupervisorObject.Supervisor.FlushPending | scripts/supervisor.ts:378-394 | empties the batch, raises the flags it asks for and wakes the drain loop: the model's step (SupervisorChanges.WantedStays says that nothing asked for is lost) |
| SupervisorObject.Supervisor.OnCommits | scripts/supervisor.ts:650-664 | a moved HEAD raises the same flags: the model's step |
| SupervisorObject.Supervisor.DrainLoop | scripts/supervisor.ts:400-404 | takes both flags at once, or ends the loop: the model's step |
| SupervisorObject.Supervisor.OnBuild | scripts/supervisor.ts:405 | a failed build drops what the pass carried: the model's step |
| SupervisorObject.Supervisor.EndPass | scripts/supervisor.ts:408-412 | restarts when asked to, when down or without a child, and otherwise leaves the server alone: the model's step |
| SupervisorObject.Supervisor.OnStopped | scripts/supervisor.ts:198-204 | starts again unless shutting down: the model's step |
| SupervisorObject.Supervisor.OnSignal | scripts/supervisor.ts:684-699 | stops once, exits at once the second time: the model's step |
| SupervisorPlan.ModesAgree | scripts/supervisorPlan.ts:172-195 | applying the policy to the plan of a whole commit asks for the same work as merging file events one by one after the policy |
| SupervisorPlan.BatchMeans | scripts/supervisorPlan.ts:172-188 | a batch builds or restarts if and only if some member asks for it |
| SupervisorPlan.PlanForPaths | scripts/supervisorPlan.ts:180-188 | stopping at the first full union computes the union of all |
| SupervisorPlan.BackoffBounds | scripts/supervisorPlan.ts:282-290 | the delay is monotone, between 1 s and 60 s, doubles below the cap, and reaches it exactly at the seventh attempt |
| SupervisorPlan.WedgedExact | scripts/supervisorPlan.ts:318-335 | for every probe history: wedged if and only if some probe was answered, the latest ones all timed out, and from the first of them to the end of the last the window passed |
| SupervisorPlan.KillNeedsTwoTimeouts | scripts/supervisorPlan.ts:400-412 | with any window the flag accepts a kill needs an earlier answer and at least two timeouts in a row |
| SupervisorProgress.LivenessWindowExact | scripts/supervisorPlan.ts:400-411 | the liveness flag is accepted if and only if it is at least ten seconds, and means that many to the nearest millisecond |
| SupervisorPlan.ChangedPaths | scripts/supervisorPlan.ts:218-232 | the result is ascending and holds exactly the paths where the maps differ |
| SupervisorPlan.AscendingIsUnique | scripts/supervisorPlan.ts:231 | such a list is unique, so the order of the maps does not matter |
| SweepWatch.SweepNotesExactly | scripts/supervisor.ts:587-601 | after any run of writes, delivered or dropped events and sweeps, a sweep notes a walked path if and only if it changed since it was last noted, and leaves none unnoted |
| SweepWatch.AlwaysAligned | scripts/supervisor.ts:501-509 | for every walked path the signature map holds the signature at its last report |
| SweepWatch.DiskIsLastWritten | scripts/supervisor.ts:449-456 | over every run a path holds what was last written to it |
| SweepWatch.SecondSweepIsQuiet | scripts/supervisor.ts:587-601 | a sweep directly after a sweep notes nothing |
| SweepWatch.UnwalkedExact | scripts/supervisorPlan.ts:212-216 | a path the sweep does not walk is noted by it if and only if the map holds it, which is if and only if a watcher event since the last sweep found the file |
| SweepWatch.UnwalkedNotedTwice | scripts/supervisor.ts:449-458 | so one change below a hidden directory, or to a linked file, is noted twice |
| SweepWatch.SourceWatch.RememberSignature | scripts/supervisor.ts:501-509 | a watcher event sets or drops exactly its own path's signature: the model's step |
| SweepWatch.SourceWatch.SweepFilesystem | scripts/supervisor.ts:587-601 | replaces the map and returns, sorted and without duplicates, exactly what the sweep notes: the model's step |
| SweepWalk.CollectSweepSignatures | scripts/supervisorPlan.ts:258-280 | the map holds a path if and only if some root's walk sees a file there, with the signature of the last such root |
| SweepWalk.Visit | scripts/supervisorPlan.ts:263-277 | the recursive walk adds exactly what it can see below a directory and leaves the rest of the map alone |
| SweepWalk.SkippedNeverSeen | scripts/supervisorPlan.ts:212-216 | no path through a hidden or ignored directory below a root is walked |
| SweepWalk.ShallowSeesOwnFiles | scripts/supervisorPlan.ts:266-269 | a root that is not recursive contributes its own files only |
| LineSplitter.ChunkingExact | apps/desktop/src/polythLinkClient.ts:89-147 | however the output is cut, the lines handled are those of the whole text if and only if no chunk boundary leaves an oversized tail that a later newline would have ended, and no line behind one that threw (a line holding null) still waits at the end |
| LineSplitter.TakenThenRest | apps/desktop/src/polythLinkClient.ts:135-141 | handling may stop at a line that throws and go on from what is left, losing and repeating nothing |
| LineSplitter.SplitAnywhere | apps/desktop/src/polythLinkClient.ts:135-141 | splitting may stop at any character and go on from the tail |
| LineSplitter.HandledBound | apps/desktop/src/polythLinkClient.ts:133-146 | no stream handles more text than it carries |
| LineSplitter.LineReader.OnData | apps/desktop/src/polythLinkClient.ts:133-147 | one chunk: the lines handled up to one that throws, what is kept, and when the process is killed |
| LinkClient.SettledOnce | apps/desktop/src/polythLinkClient.ts:81-104 | a step settles only pending requests never settled before, each with that step's own reason, and changes no earlier outcome |
| LinkClient.OutcomeIsFinal | apps/desktop/src/polythLinkClient.ts:89-104 | a settled request keeps its outcome in every further run |
| LinkClient.LateAnswerIgnored | apps/desktop/src/polythLinkClient.ts:98-99 | an answer changes the state if and only if its id is pending |
| LinkClient.NoCallForgotten | apps/desktop/src/polythLinkClient.ts:151-171 | over every run an unsettled call waits for a launch under way, is about to be registered, or is pending under its own id with its timer running |
| LinkCalls.RefusedExact | apps/desktop/src/polythLinkClient.ts:151-160 | over every run a call is refused before it has a request if and only if the client was closed when it was made, or it was made with no process there and the launch it joined failed |
| LinkCalls.CallNeverStuck | apps/desktop/src/polythLinkClient.ts:151-170 | over every run a call that was not refused waits for a launch that can end, is about to be requested, or has a request that is settled or can time out |
| LinkCalls.ClosedExact | apps/desktop/src/polythLinkClient.ts:176-178 | the client is closed if and only if close was called |
| LinkCalls.MadeToARunningProcess | apps/desktop/src/polythLinkClient.ts:151-160 | a call to an open client with a process there goes on to its request and disturbs no other |
| LinkCalls.NextCallLaunches | apps/desktop/src/polythLinkClient.ts:154-155 | a call to an open client without a process begins a launch or joins the one under way |
| LinkCalls.LaunchTakesAll | apps/desktop/src/polythLinkClient.ts:122-155 | a successful launch takes every call that joined it on, and its process becomes the current one |
| LinkCalls.LaunchEnds | apps/desktop/src/polythLinkClient.ts:154-155 | a launch that ends either way is over and leaves no call waiting; a failed one refuses those that joined it |
| LinkCalls.ReadyGetsItsId | apps/desktop/src/polythLinkClient.ts:161-169 | a ready call gets the next id, its timer and its place among the pending requests |
| LinkCalls.EndRejects | apps/desktop/src/polythLinkClient.ts:114-121 | the end of the current process rejects everything pending with the reason that fits; the end of another changes no request |
| LinkCalls.CloseExact | apps/desktop/src/polythLinkClient.ts:176-196 | a close waits for a launch under way, then for the exit of a running process; without one it rejects what is pending as closed |
| LinkCalls.CloseMoves | apps/desktop/src/polythLinkClient.ts:176-196 | nothing else moves a close, and it only moves on |
| LinkClient.IdsAreOwn | apps/desktop/src/polythLinkClient.ts:160-161 | no two calls ever share an id |
| LinkClient.OneProcessExact | apps/desktop/src/polythLinkClient.ts:106-149 | over every run two processes are ever alive at once if and only if a current process reports an error while it runs and another is launched before it exits |
| LinkClient.SecondProcessExact | apps/desktop/src/polythLinkClient.ts:114-126 | a step brings a second live process if and only if it launches one beside a live one, which then had reported an error and gone on |
| LinkClient.ErrorCanOrphan | apps/desktop/src/polythLinkClient.ts:123-126 | a concrete run in which that happens |
| LinkClient.ClosedStartsNothing | apps/desktop/src/polythLinkClient.ts:151-156 | once closed with no launch under way, no run starts a process |
| LinkClient.SingleFlight | apps/desktop/src/polythLinkClient.ts:153-155 | a process starts only while there is none, and calls meanwhile join the launch |
| LinkClientObject.PolythLinkClient.StaysValid | apps/desktop/src/polythLinkClient.ts:67-199 | every call keeps the invariant, and with it one running timer for each pending request |
| LinkClientObject.PolythLinkClient.RejectAll | apps/desktop/src/polythLinkClient.ts:81-87 | rejects and clears every pending request with its timer |
| LinkClientObject.PolythLinkClient.BeginInvoke | apps/desktop/src/polythLinkClient.ts:151-160 | refuses, joins or proceeds: the model's step |
| LinkClientObject.PolythLinkClient.OnLaunched | apps/desktop/src/polythLinkClient.ts:122-148 | the process becomes current and every call that joined the launch proceeds: the model's step |
| LinkClientObject.PolythLinkClient.RegisterRequest | apps/desktop/src/polythLinkClient.ts:161-169 | a new id with a timer: the model's step |
| LinkClientObject.PolythLinkClient.HandleLine | apps/desktop/src/polythLinkClient.ts:89-104 | settles the pending request an answer names, ignores everything else, and throws exactly on null: the model's step |
| LinkClientObject.PolythLinkClient.OnTimeout | apps/desktop/src/polythLinkClient.ts:163-166 | settles its own request only: the model's step |
| LinkClientObject.PolythLinkClient.Ended | apps/desktop/src/polythLinkClient.ts:114-121 | only the current process counts |
| LinkClientObject.PolythLinkClient.Close | apps/desktop/src/polythLinkClient.ts:176-178 | closes once, and waits for a launch under way: the model's step |
| LinkClientObject.PolythLinkClient.OnCloseResumed | apps/desktop/src/polythLinkClient.ts:180-184 | rejects what is pending when no process is left, or waits for its exit: the model's step |
| ImportClosure.StaticClosure | apps/web/build.ts:133-145 | ends on every graph, cyclic or not, and returns without duplicates exactly the known outputs reachable over static, non-external imports |
| ImportClosure.ClosedIsComplete | apps/web/build.ts:136-143 | an empty worklist leaves nothing reachable unfound, by induction over paths |
| ImportClosure.TargetIs | apps/web/build.ts:140-142 | followed edges are exactly the non-external import statements |
| ThumbQueue.Queue.Request | apps/web/src/attachmentThumbQueue.ts:29-36 | with callbacks that request and release again: terminates, keeps active equal to the granted and unreleased requests and within the limit, takes nothing back, returns with all slots taken or nobody waiting, and leaves no granted callback without its calls |
| ThumbQueue.Queue.Release | apps/web/src/attachmentThumbQueue.ts:37-43 | releases or withdraws once, does nothing the second time, returns with all slots taken or nobody waiting, and leaves no granted callback without its calls |
| ThumbQueue.Queue.Admit | apps/web/src/attachmentThumbQueue.ts:22-27 | while a slot is free the head of the line takes it and its callback runs to its end: the loop of the model |
| ThumbQueue.Queue.Grant | apps/web/src/attachmentThumbQueue.ts:24-25 | the head of the line, and no other, takes a slot: the model's step |
| ThumbQueue.Queue.Withdraw | apps/web/src/attachmentThumbQueue.ts:39 | exactly that request leaves the line |
| ThumbQueue.GrantKeepsTurn | apps/web/src/attachmentThumbQueue.ts:22-27 | each grant is later than all before it and earlier than all who wait |
| ThumbQueue.AdmittedKeeps | apps/web/src/attachmentThumbQueue.ts:22-27 | however deep callbacks call back in, admitting keeps every slot accounted for and every grant in turn, takes nothing back, and ends with all slots taken or nobody waiting |
| ThumbQueue.GivenBackKeeps | apps/web/src/attachmentThumbQueue.ts:37-43 | the same for a release; the request is released for good, and a second call changes nothing |
| ThumbQueue.RanMakes | apps/web/src/attachmentThumbQueue.ts:30-33 | running a callback makes its own calls and those of the callbacks granted meanwhile, each once, and no others |
| ThumbQueue.AskedSettles | apps/web/src/attachmentThumbQueue.ts:29-36 | after every request of the page every callback granted so far has made exactly its calls |
| ThumbQueue.GivenBackSettles | apps/web/src/attachmentThumbQueue.ts:37-43 | the same after every release |
| AttachmentCache.StepKeeps | apps/web/src/attachments.ts:56-86 | every operation keeps each cached entry equal to its stored draft and each subscriber on its own entry object, and leaves at most 64 entries or none to evict but the one in use |
| AttachmentCache.CacheIsInvisible | apps/web/src/attachments.ts:80-91 | after any run a read or send finds exactly the stored draft |
| AttachmentCache.SubscriberStaysPinned | apps/web/src/attachments.ts:157-163 | after any run a subscribed entry is the cached one, with its identity and its subscriber |
| AttachmentCache.TrimFacts | apps/web/src/attachments.ts:69-75 | trimming drops only unsubscribed, unprotected entries, keeps the rest, and stops within the bound or with nothing left to drop |
| AttachmentCache.TakeEmpties | apps/web/src/attachments.ts:149-155 | taking returns the stored draft, empties it, and touches no other |
| AttachmentCache.AddBounded | apps/web/src/attachments.ts:93-110 | an add appends exactly when there is room and no duplicate, so it never passes 16 |
| AttachmentDrafts.RemoveExact | apps/web/src/attachments.ts:112-117 | removing takes away exactly the references with that id: those that stay are the places with another id, in order and once each, and no other draft changes |
| AttachmentDrafts.AddExact | apps/web/src/attachments.ts:93-110 | a reference like any one of the draft is not added, one like none of them is while there is room |
| AttachmentDrafts.SameExact | apps/web/src/attachments.ts:98-106 | when two references are duplicates, by kind: contexts by id, links by address, files by path, range and repository, where none stands for the primary one |
| AttachmentDrafts.DraftsArePlain | apps/web/src/attachments.ts:80-155 | over every run the cached store does to each scope's draft what a plain list would |
| AttachmentDrafts.ListenersExact | apps/web/src/attachments.ts:157-165 | over every run a cached entry is listened to by exactly those who subscribed to it and have not left |
| AttachmentDrafts.SubscriptionsExact | apps/web/src/attachments.ts:157-165 | subscriptions come and go by their own calls, and join the entry of the scope asked for |
| AttachmentDrafts.TrimExact | apps/web/src/attachments.ts:69-75 | a trim drops the oldest entries that may go before any younger one, and keeps the order of the rest |
| AttachmentDrafts.TrimSize | apps/web/src/attachments.ts:69-75 | a trim drops no more than the bound of 64 asks for |
| AttachmentDrafts.TouchedIsYoungest | apps/web/src/attachments.ts:56-67 | the scope just used becomes the youngest entry |
| AttachmentCache.ForeignWriteExact | apps/web/src/attachments.ts:52-54 | a draft written by another module is seen if and only if its entry is not cached or held the same |
| AttachmentCacheObject.Attachments.StaysValid | apps/web/src/attachments.ts:43-164 | every public call keeps the invariant, and with it cached entries equal to their drafts |
| AttachmentCacheObject.Attachments.TrimEntries | apps/web/src/attachments.ts:69-75 | the loop computes the trim |
| AttachmentCacheObject.Attachments.EntryOf | apps/web/src/attachments.ts:56-67 | finds or loads, moves to the young end, trims: the model's step |
| AttachmentCacheObject.Attachments.Set | apps/web/src/attachments.ts:80-86 | cache and draft change together |
| AttachmentCacheObject.Attachments.AddAttachment | apps/web/src/attachments.ts:93-110 | refuses only a full draft: the model's step |
| AttachmentCacheObject.Attachments.TakeAttachments | apps/web/src/attachments.ts:150-155 | returns the refs and writes only when there are some: the model's step |
| AttachmentCacheObject.Attachments.OnHydrated | apps/web/src/attachments.ts:141-147 | replaces the cached refs and not the draft: the model's step |
| AttachmentCacheObject.Attachments.SubscribeTo | apps/web/src/attachments.ts:159-161 | joins the entry object it finds: the model's step |
| AttachmentCacheObject.Attachments.End | apps/web/src/attachments.ts:162 | leaves that same object and trims unprotected: the model's step |
| CapabilityLayout.OverrideExact | apps/web/src/capabilityLayout.ts:294-306 | an override passes 128 placements if and only if the record is full and the id is a name every object inherits and not yet placed |
| CapabilityLayout.PlaceExact | apps/web/src/capabilityLayout.ts:318-321 | an order list passes the bound if and only if some position holds a new id that `in` finds (inherited, or "tier" or "rank" behind "__proto__") when the record is full by then and every other new id before it still fitted |
| CapabilityLayout.PlaceWithin | apps/web/src/capabilityLayout.ts:318-321 | a list without such an id keeps the bound |
| CapabilityLayout.PrototypeOpensRecord | apps/web/src/capabilityLayout.ts:318-321 | a full record without "tier" takes it behind "__proto__" as its 129th |
| CapabilityLayout.TierOrderRails | apps/web/src/capabilityLayout.ts:322-332 | any rearrangement leaves both rails free of duplicates, at most 256 long, and disjoint |
| CapabilityLayout.RecordOnlyAdds | apps/web/src/capabilityLayout.ts:345-390 | without seeding, arrivals change and drop no placement and no seen mark, keep every bound, and leave the rails alone |
| CapabilityLayout.FixedBySecondCall | apps/web/src/capabilityLayout.ts:345-390 | repeating the same arrivals reaches a fixed record by the second call |
| CapabilityLayout.SeedFacts | apps/web/src/capabilityLayout.ts:263-278 | seeding stays within the bound and touches only an untouched or replaceable arrangement |
| CapabilityLayout.MoveFacts | apps/web/src/capabilityLayout.ts:179-186 | a move leaves the order of everything else alone and puts the dragged id directly before its target |
| CapabilityLayout.MovePermutes | apps/web/src/capabilityLayout.ts:179-186 | a move neither loses nor doubles an id |
| CapabilityPlaces.RanksExact | apps/web/src/capabilityLayout.ts:318-321 | the j-th of the distinct ids gets the tier and j as rank when it and every id before it finds room ("__proto__" never does); otherwise it stays as it was |
| CapabilityPlaces.TierOrderRanks | apps/web/src/capabilityLayout.ts:312-336 | the same for the whole operation, with or without a rail |
| CapabilityPlaces.TierOrderExact | apps/web/src/capabilityLayout.ts:312-336 | ids not listed keep their placement; the named rail takes the distinct ids dropped on it, in order, up to 256; the other keeps exactly the rest of its own, in order; the seen marks stay |
| CapabilityPlaces.UniqueExact | apps/web/src/capabilityLayout.ts:318 | every id once, in the order of the first places |
| CapabilityPlaces.OverrideSets | apps/web/src/capabilityLayout.ts:294-309 | an override places, removes or refuses its own id and changes no other |
| CapabilityPlaces.BoundedExact | apps/web/src/capabilityLayout.ts:241-249 | the j-th of a plan is placed as planned if and only if fewer than 128 come before it |
| CapabilityPlaces.SeedExact | apps/web/src/capabilityLayout.ts:263-278 | seeding happens if and only if the record was never arranged, or is a default to be replaced, and the plan places something |
| CapabilityPlaces.PinnedAsShown | apps/web/src/capabilityLayout.ts:359-366 | only a seen, unplaced id whose default tier moved is migrated, and to the tier and rank of its first such arrival |
| CapabilityPlaces.UnpinnedForRoom | apps/web/src/capabilityLayout.ts:359-366 | every such id is migrated, unless the record filled up with ones that came earlier |
| CapabilityPlaces.MarksExact | apps/web/src/capabilityLayout.ts:370-373 | exactly the arrivals looked at before 512 marks are marked |
| CapabilityPlaces.PlacedAsOffered | apps/web/src/capabilityLayout.ts:371-377 | what arrivals place is the first placement brought for the id, by one that was looked at |
| CapabilityPlaces.LeftOutForRoom | apps/web/src/capabilityLayout.ts:371-377 | an arrival looked at that brings a placement is placed, unless the record filled up with ones that came earlier |
| CapabilityPlaces.RecordExact | apps/web/src/capabilityLayout.ts:345-390 | a record never arranged takes the plan and marks all; a first record only marks; nothing to record changes nothing |
| CapabilityPlaces.LaterRecordExact | apps/web/src/capabilityLayout.ts:345-390 | in a later record an unplaced id already seen changes only by migration, and one not seen only by arrival |
| CapabilityLayoutObject.LayoutStore.SetPlacementOverride | apps/web/src/capabilityLayout.ts:294-306 | removes, sets, or refuses when full: the model's operation |
| CapabilityLayoutObject.LayoutStore.SetCapabilityTierOrder | apps/web/src/capabilityLayout.ts:312-336 | the loop with its early stop computes the model's operation |
| CapabilityLayoutObject.LayoutStore.RecordCapabilityArrivals | apps/web/src/capabilityLayout.ts:345-390 | migration and arrival loops compute the model's operation |
| CapabilityLayoutObject.LayoutStore.SeedCapabilityLayout | apps/web/src/capabilityLayout.ts:263-278 | fills an untouched record, or a default one on request, and never with nothing: the model's operation |
| ComposerConfig.EditsKeepPresetWhole | apps/web/src/composerConfig.ts:112-244 | after any sequence of edits a selected preset has no explicit model, agent or thinking level, if it had none before |
| ComposerEdits.NothingCrossesHarnesses | apps/web/src/composerConfig.ts:152-182 | whatever was edited before, after a change of harness no agent is left, and a model, a thinking level or a profile only if it belongs to that harness |
| ComposerEdits.ProfileExact | apps/web/src/composerConfig.ts:112-225 | which edits select, clear, override or keep the profile; a harness change keeps it if and only if it is saved for that harness |
| ComposerEdits.ModelExact | apps/web/src/composerConfig.ts:112-182 | the model is the one chosen last, until a preset, a clear, or a harness it does not run on |
| ComposerEdits.ThinkingExact | apps/web/src/composerConfig.ts:112-244 | the thinking level is what was chosen last, until a preset, a new model for the next turn, or a harness the model does not run on |
| ComposerEdits.HarnessExact | apps/web/src/composerConfig.ts:126-182 | the harness is pinned by a model that names its own, staged by a selection unless it is in use already, and otherwise kept |
| ComposerEdits.AgentIsLastChosen | apps/web/src/composerConfig.ts:112-225 | after any edits the agent is the one chosen last, unless a preset or a harness came after |
| ComposerConfig.RoundTripExact | apps/web/src/composerConfig.ts:50-97 | parsing what was serialized gives the configuration back if and only if it is well formed: no empty strings, no preset called "none", a grammatical harness |
| ComposerConfig.ParsedIsWellFormed | apps/web/src/composerConfig.ts:50-82 | whatever was stored, what is read is well formed |
| ComposerEdits.HarnessNameExact | apps/web/src/composerConfig.ts:64 | a pinned harness is read if and only if its name is a small letter followed by small letters, digits and dashes |
| ComposerEdits.NothingEmptyStored | apps/web/src/composerConfig.ts:84-97 | what is stored names no empty agent and no empty harness of a model |
| ComposerConfig.EditsSurviveReload | apps/web/src/composerConfig.ts:84-107 | every configuration reached by edits with acceptable strings, from the empty one or from whatever was loaded, survives a reload unchanged |
| ComposerConfig.ReloadsAreInvisible | apps/web/src/composerConfig.ts:84-244 | whatever was stored first, any number of sessions that load, edit and save ends as if all edits had been made in one |
| ComposerConfig.EqualsIsStructural | apps/web/src/composerConfig.ts:246-248 | comparing serialized forms is equality on well-formed configurations |
| ComposerConfig.ConfigStore.Consume | apps/web/src/composerConfig.ts:258-271 | a send drops the stored record if and only if it is what was sent, or that less the harness already applied; a newer edit stays |
| ComposerConfig.ConfigStore.Save | apps/web/src/composerConfig.ts:99-107 | what is saved is what is loaded, and the default leaves no record |
| RestartWaits.WaitUntil | scripts/restart-polyth.ts:122-144 | ends whenever the clock advances, with a value only after the required run of defined probes and empty-handed only past the deadline, at the first probe that decides |
| RestartWaits.EndIsUnique | scripts/restart-polyth.ts:122-144 | probes and clock leave no other outcome |
| RestartWaits.WaitForExit | scripts/restart-polyth.ts:501-533 | always ends, at the first poll that finds the server gone, the grace over or the drain limit passed, and kills exactly in the last two cases |
| RestartWaits.ExitIsUnique | scripts/restart-polyth.ts:501-533 | the polls leave no other end |
| RestartWaits.HeldShrinks | scripts/restart-polyth.ts:508-513 | the turns waited for are those held at SIGTERM that every answered poll still reports |
| RestartWaits.KillIsLate | scripts/restart-polyth.ts:512-514 | the grace is over if and only if 30 s have passed since SIGTERM with nothing held then, or since the poll that saw the last held turn gone |
| RestartWaits.HeldTurnProtects | scripts/restart-polyth.ts:492-500 | while a held turn is reported the grace never ends the wait |
| RestartWaits.RestoreUndoesBuild | scripts/restart-polyth.ts:326-333 | restoring brings every saved directory back to its content before the build, whatever the build put in its place; the copies are hard links, so it must not edit a saved file in place |
| RestartWaits.RestoreTwice | scripts/restart-polyth.ts:326-333 | restoring twice, as an abort racing the build may, is restoring once |
| RestartWaits.RestoreBundles | scripts/restart-polyth.ts:326-333 | the loop computes the restored disk |
| BuildFreshness.OneReload | apps/web/src/buildFreshness.ts:160-276 | over every run at most one reload, and none without an answer naming another build |
| BuildFreshness.RetriesBounded | apps/web/src/buildFreshness.ts:191-200 | without a resume or an answer there are never more further checks than retries left |
| BuildFreshness.DisposedExact | apps/web/src/buildFreshness.ts:268-276 | after dispose no check begins, but the answer of one in flight still reloads or offers, if and only if freshness is on and it names another build |
| BuildFreshness.DisposedAndIdle | apps/web/src/buildFreshness.ts:268-276 | a disposed watcher with no check in flight does nothing in any run |
| FreshnessChecks.CheckExact | apps/web/src/buildFreshness.ts:202-211 | a check begins if and only if a suspended page comes back, not too soon after the last check, or a retry fires on a page that shows, with freshness on and nothing in the way; its answer or failure ends it |
| FreshnessChecks.BootChecksNothing | apps/web/src/buildFreshness.ts:147-150 | a page installed visible that never leaves makes no check in any run, so it neither reloads nor offers |
| FreshnessChecks.HiddenBootChecks | apps/web/src/buildFreshness.ts:178-179 | a page installed hidden checks when it first shows, if freshness is on and the clock is past the interval |
| FreshnessChecks.SuspendedMoves | apps/web/src/buildFreshness.ts:243-258 | leaving suspends, coming back ends that, and nothing else does either |
| FreshnessChecks.ReloadExact | apps/web/src/buildFreshness.ts:219-235 | a reload is made if and only if an answer names a newer build where none is offered, or a person agrees to an offer before any reload |
| FreshnessChecks.OfferExact | apps/web/src/buildFreshness.ts:222-231 | an offer is shown if and only if an answer names a newer build that is not the one offered last |
| FreshnessChecks.RetryExact | apps/web/src/buildFreshness.ts:184-211 | a retry is set if and only if a check came to nothing and one is left; leaving, switching off, disposing, a known build and a resumed check clear it; a known build or a resume counts anew |
| BuildFreshness.Watcher.StaysValid | apps/web/src/buildFreshness.ts:160-276 | every call of the watcher that is a step keeps its invariant, and with it at most one reload |
| BuildFreshness.Watcher.BeginCheck | apps/web/src/buildFreshness.ts:202-211 | begins at most one check at a time and rations fresh ones: the model's step |
| BuildFreshness.Watcher.OnAnswer | apps/web/src/buildFreshness.ts:213-235 | retries, reloads, offers once per build, or does nothing, and retries after an offer that throws: the model's step |
| BuildFreshness.Watcher.Retry | apps/web/src/buildFreshness.ts:191-200 | spends one retry, and sets no timer once they are spent: the model's step |
| BuildFreshness.Watcher.ResumePage | apps/web/src/buildFreshness.ts:248-252 | checks only after a suspension and only while visible: the model's step |
| BuildFreshness.Watcher.Dispose | apps/web/src/buildFreshness.ts:268-275 | stops the timer but not a check in flight: the model's step |
| ConversationReveal.SettledForGood | apps/web/src/conversationReveal.ts:47-57 | the first outcome of a request stands in every run, whatever handlers call |
| ConversationReveal.NothingLeftWaiting | apps/web/src/conversationReveal.ts:38-61 | over every run a request is unsettled if and only if its timer runs |
| ConversationReveal.OutcomeExact | apps/web/src/conversationReveal.ts:38-59 | a request is settled by its own finish or by a newer call while it is pending, and by nothing else; a superseded one as not revealed |
| ConversationReveal.TwoWaitExact | apps/web/src/conversationReveal.ts:38-60 | over every run two requests wait at once if and only if some call installs its request over a pending one |
| ConversationReveal.OrphansExact | apps/web/src/conversationReveal.ts:38-60 | a step orphans a request if and only if it installs another over it, and then both wait |
| ConversationReveal.PlainCallsLeaveOne | apps/web/src/conversationReveal.ts:38-60 | calls not made from inside another's opening never do, so at most one waits |
| ConversationReveal.NestedCallOrphans | apps/web/src/conversationReveal.ts:54-59 | a concrete run in which a call made by an abort listener does |
| ConversationReveal.Reveals.Settle | apps/web/src/conversationReveal.ts:47-56 | keeps the first outcome, clears the timer, and frees the pending place only if it is this request's: the model's step |
| ConversationReveal.Reveals.Begin | apps/web/src/conversationReveal.ts:39-60 | becomes the pending request with a running timer, or is settled at once when outdated: the model's step |
| AccountId.NormalizeAccountId | apps/web/src/accountStorage.ts:27-34 | an id is returned as it is; anything else becomes the prefix and the longest part of its slug up to 40 characters that ends in a letter or digit, or the owner when nothing is left; the result always fits the grammar |
| AccountId.SeparatorSlug | apps/web/src/accountStorage.ts:7-19 | the words of letters and digits of the text, in order, with one dash between them and none at the ends |

## Left out

- Processes, sockets, timers, the file system, git, `fetch` and native calls appear only as steps with any outcome; exceptions thrown by `spawn`, by listeners or by grant callbacks are not modelled.
- ConnectionObject.ConnectionController: has the methods that touch the physical connection; those that change only the screen, the browser or the epoch (disposal, discovery, numeric codes, scanning, pairing attempts, renames) are steps of ConnectionModel only, as their methods would repeat it.
- ConnectionContinuations.NoBrowserLeaks: takes `session.stop()` to succeed; the source swallows its failure.
- Connection controller: listeners and their notifications, the wording of errors and the pairing details passed to the native side are tokens; a retried call is a new call.
- WriteQueue.StoreHoldsLastSuccess: keeps the store of each generation apart; two generations that share one store object, where an old write may land after a new one, are not modelled.
- Client persistence: the SHA-256 proxy key, the legacy migration and the text of recorded errors.
- StructuredClone.Clone: where an own "__proto__" holds an object that owns one itself, whether the copy fails depends on the properties those copies have at that moment; of such graphs only the two sufficient conditions are stated. A numeric name that is no index ("1.5"), which a typed array in "__proto__" swallows, is copied in the model.
- StructuredClone: other prototypes and non-enumerable or symbol properties of objects, holes in arrays (copied as undefined) and the depth of the call stack; the four loops of the source are one loop over entries. Memory is an explicit map from references to cells, so that "new" and "unchanged" are statements about references.
- Supervisor: probes and their timer appear only through the verdict fold, the kill they cause as the death of the process; output capture, watchdogs of the build, watcher re-arming, package discovery, `git fetch` and `pull` and the argument parser beyond the liveness window. An exit status is seen only together with its exit event.
- SupervisorPlan.PlanForPaths: takes each path's class as given; the table in `classifyChange` is settled by reading it.
- SupervisorPlan.ChangedPaths: stands numbers for paths in the sort order of the source.
- SweepWatch: a sweep reads the disk at one moment, and which paths it walks is a fixed set; SweepWalk says which paths those are for one directory tree, with the two name rules as given predicates.
- JSON-lines client: JSON text is a parsed message, exit listeners, environment filtering and logging are left out; a response is matched by its id whichever process sent it, as in the source.
- ThumbQueue.Queue.Request: a callback is the finite list of calls it makes; callbacks that throw or never return are not modelled.
- AttachmentCache: scope keys are given; uploads, native staging and artifact deletion are not modelled, every draft write is taken to reach the draft record, and a hydration is taken to answer with the stored draft (AttachmentCache.ForeignWriteExact says what happens otherwise).
- CapabilityLayout: parsing of stored records, view tabs, `resolvePlacements` (a sort).
- ComposerConfig: the draft's harness transition, and account scoping of the storage key.
- RestartWaits.WaitForExit: the order of steps in `runWorker`, the canary and the health checks are straight-line and left out; log lines are not modelled.
- AccountId.NormalizeAccountId: trimming, Unicode folding and lower-casing are given as the folded input.
- React components, styling, the desktop shell's window handling, cryptography and the packages around these files.
